/** The failed-login throttle of http_auth.py over its bounded store. */
module Throttling {
  import opened Prelude
  import opened ExpiringStores
  import opened StoreLaws
  import opened StoreRefinement
  import opened StoreSurvival

  const LOGIN_MAX_FAILURES: nat := 5
  const LOGIN_LOCKOUT_SECONDS: real := 60.0

  /** The attempts still inside the lockout window. */
  function Recent(attempts: seq<real>, now: real): seq<real> {
    if attempts == [] then []
    else (if now - attempts[0] < LOGIN_LOCKOUT_SECONDS then [attempts[0]] else []) + Recent(attempts[1..], now)
  }

  function Last(attempts: seq<real>): seq<real> {
    if |attempts| <= LOGIN_MAX_FAILURES then attempts else attempts[|attempts| - LOGIN_MAX_FAILURES..]
  }

  function OrEmpty(attempts: Option<seq<real>>): seq<real> {
    if attempts.Some? then attempts.value else []
  }

  function AppendAttempt(now: real): Option<seq<real>> -> seq<real> {
    (existing: Option<seq<real>>) => Last(Recent(OrEmpty(existing), now) + [now])
  }

  /** Whole seconds to wait; the operand is positive, so flooring is the truncation of the source. */
  function RetryAfter(attempts: seq<real>, now: real): int {
    var recent := Recent(attempts, now);
    if |recent| < LOGIN_MAX_FAILURES then 0
    else Max(1, (LOGIN_LOCKOUT_SECONDS - (now - recent[|recent| - LOGIN_MAX_FAILURES]) + 1.0).Floor)
  }

  /** A client with five attempts on record is protected from eviction. */
  function ThrottlePolicy(maxEntries: int): Policy<seq<real>> {
    Policy(maxEntries, LOGIN_LOCKOUT_SECONDS, Some((attempts: seq<real>) => |attempts| >= LOGIN_MAX_FAILURES))
  }

  function Failure(client: string, now: real): Op<seq<real>> {
    Update(client, AppendAttempt(now), now)
  }

  class LoginThrottle {
    const attempts: ExpiringStore<seq<real>>

    constructor (maxEntries: int)
      ensures fresh(attempts) && attempts.policy == ThrottlePolicy(maxEntries) && attempts.Contents() == Tiers([], [])
    {
      attempts := new ExpiringStore<seq<real>>(ThrottlePolicy(maxEntries));
    }

    /** A read: it does not extend the lockout. */
    method RetryAfterFor(client: string, now: real) returns (seconds: int)
      modifies attempts
      ensures seconds == RetryAfter(OrEmpty(Read(old(attempts.Contents()), client, now)), now)
      ensures attempts.Contents() == Swept(old(attempts.Contents()), now)
    {
      var known := attempts.Get(client, now);
      var recent := Recent(OrEmpty(known), now);
      if |recent| < LOGIN_MAX_FAILURES {
        return 0;
      }
      var oldest := recent[|recent| - LOGIN_MAX_FAILURES];
      return Max(1, (LOGIN_LOCKOUT_SECONDS - (now - oldest) + 1.0).Floor);
    }

    method RecordFailedLogin(client: string, now: real)
      modifies attempts
      ensures attempts.Contents() == Apply(attempts.policy, old(attempts.Contents()), Failure(client, now))
    {
      var _ := attempts.Mutate(client, AppendAttempt(now), now);
    }

    method ClearFailedLogins(client: string, now: real)
      modifies attempts
      ensures attempts.Contents() == Apply(attempts.policy, old(attempts.Contents()), Take(client, now))
    {
      var _ := attempts.Pop(client, now);
    }
  }

  // ------------------------------------------------------------------ windows of an ordered history

  ghost predicate Ordered(s: seq<real>) {
    forall i, j :: 0 <= i < j < |s| ==> s[i] <= s[j]
  }

  /** In an ordered history the recent attempts are a suffix. */
  lemma {:induction false} RecentIsSuffix(s: seq<real>, now: real) returns (i: nat)
    requires Ordered(s)
    ensures i <= |s| && Recent(s, now) == s[i..]
    ensures forall j :: 0 <= j < |s| ==> (i <= j <==> now - s[j] < LOGIN_LOCKOUT_SECONDS)
  {
    if s == [] {
      i := 0;
    } else {
      var tail := s[1..];
      var rest := RecentIsSuffix(tail, now);
      if now - s[0] < LOGIN_LOCKOUT_SECONDS {
        i := 0;
        if tail != [] {
          assert s[0] <= s[1] == tail[0];
        }
        assert rest == 0 && tail[0..] == tail && [s[0]] + tail == s;
        FirstBounds(s, now);
      } else {
        i := rest + 1;
        assert tail[rest..] == s[i..];
        forall j | 0 <= j < |s|
          ensures i <= j <==> now - s[j] < LOGIN_LOCKOUT_SECONDS
        {
          assert j > 0 ==> s[j] == tail[j - 1];
        }
      }
    }
  }

  lemma FirstBounds(s: seq<real>, now: real)
    requires Ordered(s) && s != [] && now - s[0] < LOGIN_LOCKOUT_SECONDS
    ensures forall j :: 0 <= j < |s| ==> now - s[j] < LOGIN_LOCKOUT_SECONDS
  {
  }

  /** The window of a suffix starts where the window of the whole does, or at the suffix. */
  lemma WindowOfSuffix(full: seq<real>, from: nat, now: real) returns (j: nat)
    requires Ordered(full) && from <= |full|
    ensures j <= |full| && Recent(full, now) == full[j..]
    ensures Recent(full[from..], now) == full[if from <= j then j else from..]
    ensures forall m :: 0 <= m < |full| ==> (j <= m <==> now - full[m] < LOGIN_LOCKOUT_SECONDS)
  {
    j := RecentIsSuffix(full, now);
    var kept := full[from..];
    var k := RecentIsSuffix(kept, now);
    if k < |kept| {
      assert kept[k] == full[from + k] && now - kept[k] < LOGIN_LOCKOUT_SECONDS;
    }
    if from <= j < |full| {
      assert kept[j - from] == full[j] && now - full[j] < LOGIN_LOCKOUT_SECONDS;
    } else if j < from < |full| {
      assert kept[0] == full[from] && now - full[from] < LOGIN_LOCKOUT_SECONDS;
    }
    assert from + k == if from <= j then j else from;
    assert kept[k..] == full[from + k..];
  }

  lemma LastOfSuffix(full: seq<real>, j: nat, from: nat)
    requires j <= from <= |full| && (from == j || from == |full| - LOGIN_MAX_FAILURES)
    ensures Last(full[from..]) == Last(full[j..])
  {
  }

  /** Only the last five recent attempts decide the answer. */
  lemma LastFiveDecide(a: seq<real>, b: seq<real>, now: real)
    requires Last(Recent(a, now)) == Last(Recent(b, now))
    ensures RetryAfter(a, now) == RetryAfter(b, now)
  {
  }

  /** Trimming to five and to an earlier window loses nothing a later question can see. */
  lemma TrimmedHistoryAnswers(full: seq<real>, kept: seq<real>, earlier: real, now: real)
    requires Ordered(full) && earlier <= now && kept == Last(Recent(full, earlier))
    ensures Last(Recent(kept, now)) == Last(Recent(full, now))
    ensures RetryAfter(kept, now) == RetryAfter(full, now)
  {
    var i := RecentIsSuffix(full, earlier);
    var from := if |full| - i <= LOGIN_MAX_FAILURES then i else |full| - LOGIN_MAX_FAILURES;
    assert kept == full[from..];
    var j := WindowOfSuffix(full, from, now);
    assert i <= j by {
      assert j < |full| ==> now - full[j] < LOGIN_LOCKOUT_SECONDS;
    }
    LastOfSuffix(full, j, if from <= j then j else from);
    LastFiveDecide(kept, full, now);
  }

  lemma {:induction false} RecentOfAppended(s: seq<real>, x: real, now: real)
    requires now - x < LOGIN_LOCKOUT_SECONDS
    ensures Recent(s + [x], now) == Recent(s, now) + [x]
  {
    if s == [] {
      assert [] + [x] == [x];
    } else {
      var tail := s[1..];
      RecentOfAppended(tail, x, now);
      assert (s + [x])[1..] == tail + [x] && (s + [x])[0] == s[0];
      var head := if now - s[0] < LOGIN_LOCKOUT_SECONDS then [s[0]] else [];
      assert head + (Recent(tail, now) + [x]) == (head + Recent(tail, now)) + [x];
    }
  }

  lemma OrderedAppended(full: seq<real>, now: real)
    requires Ordered(full) && (forall i :: 0 <= i < |full| ==> full[i] <= now)
    ensures Ordered(full + [now])
  {
  }

  lemma AppendedHistory(full: seq<real>, now: real)
    requires Ordered(full) && (forall i :: 0 <= i < |full| ==> full[i] <= now)
    ensures Recent(full + [now], now) == Recent(full, now) + [now] && Ordered(full + [now])
  {
    OrderedAppended(full, now);
    RecentOfAppended(full, now, now);
  }

  // ------------------------------------------------------------------ the bounded throttle and the full history

  datatype Event = Failed(client: string, at: real) | Asked(client: string, at: real) | Forgiven(client: string, at: real)

  function OpOf(e: Event): Op<seq<real>> {
    match e
    case Failed(client, at) => Failure(client, at)
    case Asked(client, at) => Look(client, at)
    case Forgiven(client, at) => Take(client, at)
  }

  function OpsOf(events: seq<Event>): (ops: seq<Op<seq<real>>>)
    ensures |ops| == |events| && forall i :: 0 <= i < |ops| ==> ops[i] == OpOf(events[i])
  {
    if events == [] then [] else OpsOf(events[..|events| - 1]) + [OpOf(events[|events| - 1])]
  }

  /** Every failure of the client since it was last forgiven, however long ago. */
  function FullHistory(events: seq<Event>, client: string): seq<real> {
    if events == [] then []
    else Extended(FullHistory(events[..|events| - 1], client), events[|events| - 1], client)
  }

  function Extended(full: seq<real>, e: Event, client: string): seq<real> {
    if e.client != client then full
    else match e
      case Failed(_, at) => full + [at]
      case Asked(_, _) => full
      case Forgiven(_, _) => []
  }

  ghost predicate InOrder(events: seq<Event>) {
    forall i, j :: 0 <= i < j < |events| ==> events[i].at <= events[j].at
  }

  lemma {:induction false} HistoryIsOrdered(events: seq<Event>, client: string)
    requires InOrder(events)
    ensures Ordered(FullHistory(events, client))
    ensures forall i :: 0 <= i < |FullHistory(events, client)| ==>
      events != [] && FullHistory(events, client)[i] <= events[|events| - 1].at
    decreases |events|
  {
    if events != [] {
      var before := events[..|events| - 1];
      HistoryIsOrdered(before, client);
      var full := FullHistory(before, client);
      forall i | 0 <= i < |full|
        ensures full[i] <= events[|events| - 1].at
      {
        assert full[i] <= before[|before| - 1].at;
      }
    }
  }

  /** What the plain map keeps of a client is the trimmed window of its full history. */
  ghost predicate Keeps(plain: map<string, Entry<seq<real>>>, client: string, full: seq<real>) {
    if client in plain then
      && full != [] && plain[client].value == Last(Recent(full, full[|full| - 1]))
      && plain[client].expiresAt == full[|full| - 1] + LOGIN_LOCKOUT_SECONDS
    else full == []
  }

  lemma KeptAnswers(plain: map<string, Entry<seq<real>>>, client: string, full: seq<real>, now: real)
    requires Keeps(plain, client, full) && Ordered(full) && forall i :: 0 <= i < |full| ==> full[i] <= now
    ensures Last(Recent(OrEmpty(PlainRead(plain, client, now)), now)) == Last(Recent(full, now))
    ensures RetryAfter(OrEmpty(PlainRead(plain, client, now)), now) == RetryAfter(full, now)
  {
    if client in plain {
      if now < plain[client].expiresAt {
        TrimmedHistoryAnswers(full, plain[client].value, full[|full| - 1], now);
      } else {
        var i := RecentIsSuffix(full, now);
        forall j | 0 <= j < |full|
          ensures LOGIN_LOCKOUT_SECONDS <= now - full[j]
        {
          assert full[j] <= full[|full| - 1];
        }
        assert i == |full|;
      }
    }
  }

  lemma LastOfAppended(a: seq<real>, b: seq<real>, x: real)
    requires Last(a) == Last(b)
    ensures Last(a + [x]) == Last(b + [x])
  {
  }

  lemma {:induction false} PlainKeepsWindows(events: seq<Event>, client: string)
    requires InOrder(events)
    ensures Keeps(PlainRun(LOGIN_LOCKOUT_SECONDS, OpsOf(events)), client, FullHistory(events, client))
    decreases |events|
  {
    if events != [] {
      var before, e := events[..|events| - 1], events[|events| - 1];
      PlainKeepsWindows(before, client);
      HistoryIsOrdered(before, client);
      var full := FullHistory(before, client);
      assert forall i :: 0 <= i < |full| ==> full[i] <= before[|before| - 1].at <= e.at;
      EventKeepsWindow(PlainRun(LOGIN_LOCKOUT_SECONDS, OpsOf(before)), client, full, e);
    }
  }

  lemma EventKeepsWindow(plain: map<string, Entry<seq<real>>>, client: string, full: seq<real>, e: Event)
    requires Keeps(plain, client, full) && Ordered(full) && forall i :: 0 <= i < |full| ==> full[i] <= e.at
    ensures Keeps(PlainApply(LOGIN_LOCKOUT_SECONDS, plain, OpOf(e)), client, Extended(full, e, client))
  {
    if e.Failed? && e.client == client {
      FailureKeepsWindow(plain, client, full, e.at);
    }
  }

  lemma FailureKeepsWindow(plain: map<string, Entry<seq<real>>>, client: string, full: seq<real>, now: real)
    requires Keeps(plain, client, full) && Ordered(full) && forall i :: 0 <= i < |full| ==> full[i] <= now
    ensures Keeps(PlainApply(LOGIN_LOCKOUT_SECONDS, plain, Failure(client, now)), client, full + [now])
  {
    KeptAnswers(plain, client, full, now);
    AppendedHistory(full, now);
    var kept := Recent(OrEmpty(PlainRead(plain, client, now)), now);
    LastOfAppended(kept, Recent(full, now), now);
    assert (full + [now])[|full + [now]| - 1] == now;
  }

  /** Absent eviction, five timestamps and a one-minute life answer exactly as every failure ever recorded would. */
  lemma {:induction false} BoundedThrottleIsTheFullThrottle(maxEntries: int, events: seq<Event>, start: real, client: string, now: real)
    requires InOrder(events) && (events != [] ==> start <= events[0].at)
    requires start <= now && (events != [] ==> events[|events| - 1].at <= now)
    requires NeverEvicts(ThrottlePolicy(maxEntries), OpsOf(events))
    ensures RetryAfter(OrEmpty(Read(Run(ThrottlePolicy(maxEntries), OpsOf(events)), client, now)), now)
         == RetryAfter(FullHistory(events, client), now)
  {
    var p, ops := ThrottlePolicy(maxEntries), OpsOf(events);
    OpsAreMonotone(events);
    IndistinguishableUntilAnEviction(p, ops, start, Look(client, now));
    var plain, full := PlainRun(p.ttl, ops), FullHistory(events, client);
    assert Read(Run(p, ops), client, now) == PlainRead(plain, client, now);
    PlainKeepsWindows(events, client);
    HistoryIsOrdered(events, client);
    KeptAnswers(plain, client, full, now);
  }

  lemma OpsAreMonotone(events: seq<Event>)
    requires InOrder(events)
    ensures Monotone(OpsOf(events))
  {
  }

  // ------------------------------------------------------------------ waiting

  /** The oldest of the five attempts that lock the client out. */
  function Oldest(attempts: seq<real>, now: real): real
    requires LOGIN_MAX_FAILURES <= |Recent(attempts, now)|
  {
    Recent(attempts, now)[|Recent(attempts, now)| - LOGIN_MAX_FAILURES]
  }

  /** Without a new failure the client stays locked out exactly until its oldest counted failure is 60 seconds old. */
  lemma LockedUntilTheOldestExpires(attempts: seq<real>, now: real, later: real)
    requires Ordered(attempts) && now <= later && 0 < RetryAfter(attempts, now)
    ensures LOGIN_MAX_FAILURES <= |Recent(attempts, now)|
    ensures 0 < RetryAfter(attempts, later) <==> later - Oldest(attempts, now) < LOGIN_LOCKOUT_SECONDS
  {
    var i := RecentIsSuffix(attempts, now);
    var j := RecentIsSuffix(attempts, later);
    var at := |attempts| - LOGIN_MAX_FAILURES;
    assert Oldest(attempts, now) == attempts[at];
    assert i <= at;
    assert j <= at <==> later - attempts[at] < LOGIN_LOCKOUT_SECONDS;
  }

  /** A client is locked out exactly if its fifth-last attempt is less than a minute old, and is then told the time until
      that attempt is a minute old, no less and at most a second too much. */
  predicate TellsTheWait(answer: int, attempts: seq<real>, now: real) {
    var n := |attempts|;
    && 0 <= answer && (0 < answer <==> 5 <= n && now - attempts[n - 5] < 60.0)
    && (0 < answer ==> attempts[n - 5] + 60.0 - now < answer as real <= attempts[n - 5] + 61.0 - now)
  }

  lemma TheAnswerIsTight(attempts: seq<real>, now: real)
    requires Ordered(attempts)
    ensures TellsTheWait(RetryAfter(attempts, now), attempts, now)
  {
    var i := RecentIsSuffix(attempts, now);
    if i + 5 <= |attempts| {
      assert Recent(attempts, now)[|attempts| - i - 5] == attempts[|attempts| - 5];
    }
  }

  /** So, absent eviction, is every client of the store, by all the failures it ever had. */
  lemma TheToldWaitIsTight(maxEntries: int, events: seq<Event>, start: real, client: string, now: real)
    requires InOrder(events) && (events != [] ==> start <= events[0].at)
    requires start <= now && (events != [] ==> events[|events| - 1].at <= now)
    requires NeverEvicts(ThrottlePolicy(maxEntries), OpsOf(events))
    ensures TellsTheWait(RetryAfter(OrEmpty(Read(Run(ThrottlePolicy(maxEntries), OpsOf(events)), client, now)), now),
                         FullHistory(events, client), now)
  {
    var full := FullHistory(events, client);
    BoundedThrottleIsTheFullThrottle(maxEntries, events, start, client, now);
    HistoryIsOrdered(events, client);
    TheAnswerIsTight(full, now);
  }

  /** Waiting exactly as long as told is enough. */
  lemma WaitingAsToldIsEnough(attempts: seq<real>, now: real)
    requires Ordered(attempts) && 0 < RetryAfter(attempts, now)
    ensures RetryAfter(attempts, now + RetryAfter(attempts, now) as real) == 0
  {
    var i := RecentIsSuffix(attempts, now);
    var oldest := Oldest(attempts, now);
    var later := now + RetryAfter(attempts, now) as real;
    LockedUntilTheOldestExpires(attempts, now, later);
    assert RetryAfter(attempts, later) >= 0;
  }

  /** Whoever is actually locked out sits in the protected tier. */
  lemma LockedOutIsProtected(maxEntries: int, t: Tiers<seq<real>>, clock: real, client: string, now: real)
    requires StoreSound(ThrottlePolicy(maxEntries), t, clock) && clock <= now
    requires 0 < RetryAfter(OrEmpty(Read(t, client, now)), now)
    ensures Lookup(t.guarded, client).Some? && Lookup(t.ordinary, client).None?
  {
    var p := ThrottlePolicy(maxEntries);
    ReadIsHeld(p, t, clock, client, now);
    var e :| Held(t, e) && e.key == client && now < e.expiresAt && Read(t, client, now) == Some(e.value);
    RecentIsShorter(e.value, now);
    assert p.Protects(e.value);
    FindIsHeld(p, t, clock, e);
    assert e !in t.ordinary;
    LookupMeansHas(t.ordinary, client);
    LookupMeansHas(t.guarded, client);
  }

  lemma {:induction false} RecentIsShorter(attempts: seq<real>, now: real)
    ensures |Recent(attempts, now)| <= |attempts|
  {
    if attempts != [] {
      RecentIsShorter(attempts[1..], now);
    }
  }
}
