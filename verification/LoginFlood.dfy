/** A lockout under a flood of other clients: what it outlives, and that the bounds are exact. */
module LoginFlood {
  import opened Prelude
  import opened ExpiringStores
  import opened StoreLaws
  import opened StoreRefinement
  import opened StoreSurvival
  import opened Throttling

  // ------------------------------------------------------------------ records

  /** The client's record, written at `at`, is the newest of its tier: the protected one once it is full. */
  ghost predicate OnRecord(p: Policy<seq<real>>, t: Tiers<seq<real>>, client: string, attempts: seq<real>, at: real) {
    && StoreSound(p, t, at) && |attempts| <= LOGIN_MAX_FAILURES
    && var e := Entry(client, at + LOGIN_LOCKOUT_SECONDS, attempts);
       if |attempts| < LOGIN_MAX_FAILURES then Stands(t.ordinary, e, 0) else Stands(t.guarded, e, 0)
  }

  predicate EndsWith(list: seq<real>, tail: seq<real>) {
    |tail| <= |list| && list[|list| - |tail|..] == tail
  }

  ghost predicate InsideTheWindow(times: seq<real>, now: real) {
    forall i :: 0 <= i < |times| ==> now - times[i] < LOGIN_LOCKOUT_SECONDS
  }

  lemma {:induction false} AllRecent(times: seq<real>, now: real)
    requires InsideTheWindow(times, now)
    ensures Recent(times, now) == times
  {
    if times != [] {
      AllRecent(times[1..], now);
      assert [times[0]] + times[1..] == times;
    }
  }

  lemma RecentOfFirst(first: real, rest: seq<real>, now: real)
    ensures Recent([first] + rest, now) == (if now - first < LOGIN_LOCKOUT_SECONDS then [first] else []) + Recent(rest, now)
  {
    assert ([first] + rest)[1..] == rest;
  }

  lemma Regrouped(a: seq<real>, b: seq<real>, c: seq<real>)
    ensures a + (b + c) == (a + b) + c
  {
  }

  lemma {:induction false} RecentDistributes(a: seq<real>, b: seq<real>, now: real)
    ensures Recent(a + b, now) == Recent(a, now) + Recent(b, now)
  {
    if a == [] {
      assert a + b == b;
    } else {
      var first, rest := a[0], a[1..];
      RecentDistributes(rest, b, now);
      assert a == [first] + rest && a + b == [first] + (rest + b);
      RecentOfFirst(first, rest, now);
      RecentOfFirst(first, rest + b, now);
      Regrouped(if now - first < LOGIN_LOCKOUT_SECONDS then [first] else [], Recent(rest, now), Recent(b, now));
    }
  }

  /** Whatever older attempts a list begins with, trimming keeps the recent ones it ends with. */
  lemma TrimmingKeepsTheEnd(old_: seq<real>, tail: seq<real>, now: real)
    requires EndsWith(old_, tail) && InsideTheWindow(tail, now) && |tail| < LOGIN_MAX_FAILURES
    ensures EndsWith(Last(Recent(old_, now) + [now]), tail + [now])
  {
    var front := old_[..|old_| - |tail|];
    assert old_ == front + tail;
    RecentDistributes(front, tail, now);
    AllRecent(tail, now);
    assert Recent(front, now) + (tail + [now]) == Recent(old_, now) + [now];
  }

  /** A write puts the entry at the back of its tier, when the cap is two or more. */
  lemma WrittenStandsLast<V(!new)>(p: Policy<V>, t: Tiers<V>, clock: real, key: string, value: V, now: real)
    requires StoreSound(p, t, clock) && clock <= now && 2 <= p.Cap()
    ensures var e := Entry(key, now + p.ttl, value); var after := Written(p, t, key, value, now);
      if p.Protects(value) then Stands(after.guarded, e, 0) else Stands(after.ordinary, e, 0)
  {
    SweepKeepsStore(p, t, clock, now);
    var swept := Swept(t, now);
    var bare := Cleared(p, swept, key, now);
    var e := Entry(key, now + p.ttl, value);
    PlaceKeepsStore(p, swept, key, value, now);
    var placed := Place(p, swept, key, value, now);
    TrimKeepsStore(p, placed, now);
    if p.Protects(value) {
      LastStands(if p.Share() <= |bare.guarded| then bare.guarded[1..] else bare.guarded, e);
    } else {
      LastStands(bare.ordinary, e);
      TrimKeepsStanding(p, placed, e, 0, now);
    }
  }

  /** The list a failure writes, and where it stands. */
  lemma FailureIsOnRecord(maxEntries: int, t: Tiers<seq<real>>, clock: real, client: string, now: real) returns (attempts: seq<real>)
    requires StoreSound(ThrottlePolicy(maxEntries), t, clock) && clock <= now && 2 <= ThrottlePolicy(maxEntries).Cap()
    ensures attempts == Last(Recent(OrEmpty(Current(t, client, now)), now) + [now])
    ensures OnRecord(ThrottlePolicy(maxEntries), Apply(ThrottlePolicy(maxEntries), t, Failure(client, now)), client, attempts, now)
  {
    var p := ThrottlePolicy(maxEntries);
    attempts := AppendAttempt(now)(Current(t, client, now));
    WrittenStandsLast(p, t, clock, client, attempts, now);
    WriteKeepsStore(p, t, clock, client, attempts, now);
  }

  lemma StandingIsRead(p: Policy<seq<real>>, t: Tiers<seq<real>>, clock: real, e: Entry<seq<real>>, behind: int, now: real)
    requires StoreSound(p, t, clock) && clock <= now < e.expiresAt
    requires Stands(t.ordinary, e, behind) || Stands(t.guarded, e, behind)
    ensures Read(t, e.key, now) == Some(e.value) && Current(t, e.key, now) == Some(e.value)
  {
    assert Held(t, e);
    ReadIsHeld(p, t, clock, e.key, now);
  }

  // ------------------------------------------------------------------ traffic between two failures

  /** What anyone does at the login endpoint between two failures of the client: other clients fail, ask and are
      forgiven, and the client itself asks how long it has to wait. */
  ghost predicate Meanwhile(traffic: seq<Event>, client: string, from: real, until: real) {
    && InOrder(traffic)
    && forall i :: 0 <= i < |traffic| ==>
         from <= traffic[i].at <= until && (traffic[i].client == client ==> traffic[i].Asked?)
  }

  function After(p: Policy<seq<real>>, t: Tiers<seq<real>>, traffic: seq<Event>): Tiers<seq<real>> {
    ApplyAll(p, t, OpsOf(traffic))
  }

  /** Failures of other clients. */
  function Failures(traffic: seq<Event>): nat {
    TotalLoad(OpsOf(traffic))
  }

  /** Failures that complete or extend a lockout of another client. */
  function Lockouts(p: Policy<seq<real>>, t: Tiers<seq<real>>, traffic: seq<Event>): nat {
    TotalGuardedLoad(p, t, OpsOf(traffic))
  }

  /** Light enough for the client's record: fewer lockouts than the share for one in the protected tier, fewer failures
      than the rest of the cap for any other. */
  predicate Light(p: Policy<seq<real>>, t: Tiers<seq<real>>, client: string, traffic: seq<Event>) {
    if Lookup(t.guarded, client).Some? then Lockouts(p, t, traffic) < p.Share()
    else Failures(traffic) < p.Cap() - p.Share()
  }

  lemma MeanwhileIsForeign(traffic: seq<Event>, client: string, from: real, until: real, expiry: real)
    requires Meanwhile(traffic, client, from, until) && until < expiry
    ensures ForeignTraffic(OpsOf(traffic), client, from, expiry)
    ensures from <= until ==> ClockOf(OpsOf(traffic), from) <= until
  {
  }

  lemma RecordIsInOneTier(p: Policy<seq<real>>, t: Tiers<seq<real>>, client: string, attempts: seq<real>, at: real)
    requires OnRecord(p, t, client, attempts, at)
    ensures Lookup(t.guarded, client).Some? <==> |attempts| == LOGIN_MAX_FAILURES
  {
    var e := Entry(client, at + LOGIN_LOCKOUT_SECONDS, attempts);
    LookupMeansHas(t.guarded, client);
    if |attempts| < LOGIN_MAX_FAILURES {
      var i :| StandsAt(t.ordinary, e, 0, i);
      assert !Has(t.guarded, t.ordinary[i].key);
    } else {
      var i :| StandsAt(t.guarded, e, 0, i);
      assert t.guarded[i].key == client;
    }
  }

  /** The record outlives light traffic, whoever asks for it meanwhile. */
  lemma RecordOutlives(p: Policy<seq<real>>, t: Tiers<seq<real>>, client: string, attempts: seq<real>, at: real,
                       traffic: seq<Event>, now: real)
    requires OnRecord(p, t, client, attempts, at) && Light(p, t, client, traffic)
    requires at <= now < at + LOGIN_LOCKOUT_SECONDS && Meanwhile(traffic, client, at, now)
    ensures StoreSound(p, After(p, t, traffic), now)
    ensures Current(After(p, t, traffic), client, now) == Some(attempts) == Read(After(p, t, traffic), client, now)
  {
    var e := Entry(client, at + LOGIN_LOCKOUT_SECONDS, attempts);
    var ops := OpsOf(traffic);
    MeanwhileIsForeign(traffic, client, at, now, e.expiresAt);
    RecordIsInOneTier(p, t, client, attempts, at);
    TrafficKeepsStore(p, t, at, client, e.expiresAt, ops);
    var after := ApplyAll(p, t, ops);
    if |attempts| < LOGIN_MAX_FAILURES {
      OrdinaryOutlivesTraffic(p, t, at, e, ops);
      StandingIsRead(p, after, ClockOf(ops, at), e, TotalLoad(ops), now);
    } else {
      GuardedOutlivesTraffic(p, t, at, e, ops);
      StandingIsRead(p, after, ClockOf(ops, at), e, TotalGuardedLoad(p, t, ops), now);
    }
  }

  // ------------------------------------------------------------------ five failures inside one minute

  /** The store after the first `k` failures and the traffic between them. */
  function AfterFailures(p: Policy<seq<real>>, t: Tiers<seq<real>>, client: string, times: seq<real>,
                         between: seq<seq<Event>>, k: nat): Tiers<seq<real>>
    requires k <= |times| <= |between| + 1
  {
    if k == 0 then t
    else
      var before := AfterFailures(p, t, client, times, between, k - 1);
      Apply(p, if k == 1 then before else After(p, before, between[k - 2]), Failure(client, times[k - 1]))
  }

  /** Five failures of the client inside one minute, from any store whatever, with traffic between them. */
  ghost predicate FiveFailures(p: Policy<seq<real>>, t: Tiers<seq<real>>, clock: real, client: string, times: seq<real>,
                               between: seq<seq<Event>>) {
    && StoreSound(p, t, clock) && 2 <= p.Cap()
    && |times| == 5 && |between| == 4 && Ordered(times) && clock <= times[0] && times[4] - times[0] < LOGIN_LOCKOUT_SECONDS
    && forall k :: 0 <= k < 4 ==> Meanwhile(between[k], client, times[k], times[k + 1])
  }

  /** Each stretch of traffic is light for the record it finds. */
  ghost predicate LightBetween(p: Policy<seq<real>>, t: Tiers<seq<real>>, client: string, times: seq<real>,
                               between: seq<seq<Event>>)
    requires |times| == 5 && |between| == 4
  {
    forall k :: 0 <= k < 4 ==> Light(p, AfterFailures(p, t, client, times, between, k + 1), client, between[k])
  }

  /** The record a failure leaves when the store still knows the earlier ones: it ends with all of them. */
  lemma NextRecord(maxEntries: int, p: Policy<seq<real>>, t: Tiers<seq<real>>, clock: real, client: string,
                   known: seq<real>, tail: seq<real>, now: real)
    returns (attempts: seq<real>)
    requires p == ThrottlePolicy(maxEntries) && StoreSound(p, t, clock) && clock <= now && 2 <= p.Cap()
    requires OrEmpty(Current(t, client, now)) == known && EndsWith(known, tail) && InsideTheWindow(tail, now)
    requires |tail| < LOGIN_MAX_FAILURES
    ensures OnRecord(p, Apply(p, t, Failure(client, now)), client, attempts, now)
    ensures EndsWith(attempts, tail + [now]) && attempts == Last(Recent(known, now) + [now])
  {
    attempts := FailureIsOnRecord(maxEntries, t, clock, client, now);
    TrimmingKeepsTheEnd(known, tail, now);
  }

  /** One stretch of light traffic and the failure after it. */
  lemma StretchAndFailure(maxEntries: int, p: Policy<seq<real>>, t: Tiers<seq<real>>, client: string, known: seq<real>,
                          tail: seq<real>, from: real, traffic: seq<Event>, now: real)
    returns (attempts: seq<real>)
    requires p == ThrottlePolicy(maxEntries) && 2 <= p.Cap()
    requires OnRecord(p, t, client, known, from) && Light(p, t, client, traffic) && Meanwhile(traffic, client, from, now)
    requires from <= now < from + LOGIN_LOCKOUT_SECONDS
    requires EndsWith(known, tail) && InsideTheWindow(tail, now) && |tail| < LOGIN_MAX_FAILURES
    ensures OnRecord(p, Apply(p, After(p, t, traffic), Failure(client, now)), client, attempts, now)
    ensures EndsWith(attempts, tail + [now]) && attempts == Last(Recent(known, now) + [now])
  {
    RecordOutlives(p, t, client, known, from, traffic, now);
    attempts := NextRecord(maxEntries, p, After(p, t, traffic), now, client, known, tail, now);
  }

  /** What lies between failure `k` and the next. */
  lemma Gap(p: Policy<seq<real>>, t: Tiers<seq<real>>, clock: real, client: string, times: seq<real>, between: seq<seq<Event>>, k: nat)
    requires FiveFailures(p, t, clock, client, times, between) && 1 <= k <= 4
    ensures Meanwhile(between[k - 1], client, times[k - 1], times[k])
    ensures InsideTheWindow(times[..k], times[k]) && times[k - 1] <= times[k] < times[k - 1] + LOGIN_LOCKOUT_SECONDS
    ensures times[..k + 1] == times[..k] + [times[k]]
    ensures AfterFailures(p, t, client, times, between, k + 1)
         == Apply(p, After(p, AfterFailures(p, t, client, times, between, k), between[k - 1]), Failure(client, times[k]))
  {
    var i := k - 1;
    assert Meanwhile(between[i], client, times[i], times[i + 1]);
  }

  /** After `k` failures the record ends with all of them, whatever older failures it began with. */
  lemma {:induction false} RecordAfterFailures(maxEntries: int, p: Policy<seq<real>>, t: Tiers<seq<real>>, clock: real, client: string,
                                               times: seq<real>, between: seq<seq<Event>>, k: nat)
    returns (attempts: seq<real>)
    requires p == ThrottlePolicy(maxEntries) && FiveFailures(p, t, clock, client, times, between) && 1 <= k <= 5
    requires forall i :: 0 <= i < k - 1 ==> Light(p, AfterFailures(p, t, client, times, between, i + 1), client, between[i])
    ensures OnRecord(p, AfterFailures(p, t, client, times, between, k), client, attempts, times[k - 1])
    ensures EndsWith(attempts, times[..k])
    decreases k
  {
    if k == 1 {
      attempts := NextRecord(maxEntries, p, t, clock, client, OrEmpty(Current(t, client, times[0])), [], times[0]);
      assert times[..1] == [] + [times[0]];
    } else {
      var i, j := k - 2, k - 1;
      var known := RecordAfterFailures(maxEntries, p, t, clock, client, times, between, j);
      var before := AfterFailures(p, t, client, times, between, j);
      assert Light(p, AfterFailures(p, t, client, times, between, i + 1), client, between[i]);
      Gap(p, t, clock, client, times, between, j);
      attempts := StretchAndFailure(maxEntries, p, before, client, known, times[..j], times[i], between[i], times[j]);
    }
  }

  /** A full record answers by its oldest attempt, after whatever lockouts it outlives. */
  lemma RecordAnswers(p: Policy<seq<real>>, locked: Tiers<seq<real>>, client: string, times: seq<real>,
                      later: seq<Event>, now: real)
    requires |times| == 5 && Ordered(times) && OnRecord(p, locked, client, times, times[4])
    requires times[4] <= now < times[4] + LOGIN_LOCKOUT_SECONDS && Meanwhile(later, client, times[4], now)
    requires Lockouts(p, locked, later) < p.Share()
    ensures 0 < RetryAfter(OrEmpty(Read(After(p, locked, later), client, now)), now) <==> now - times[0] < LOGIN_LOCKOUT_SECONDS
  {
    RecordIsInOneTier(p, locked, client, times, times[4]);
    RecordOutlives(p, locked, client, times, times[4], later, now);
    FiveDecide(times, now);
  }

  lemma FiveDecide(times: seq<real>, now: real)
    requires Ordered(times) && |times| == 5
    ensures 0 < RetryAfter(times, now) <==> now - times[0] < LOGIN_LOCKOUT_SECONDS
  {
    var i := RecentIsSuffix(times, now);
    assert i <= 0 <==> now - times[0] < LOGIN_LOCKOUT_SECONDS;
  }

  /** With cap c >= 2 and protected share s: a client that fails five times inside one minute, with light traffic in
      between, is locked out, whatever the store knew of it before; and while fewer than s later lockouts of others are
      placed it stays locked out exactly until its oldest counted failure is 60 seconds old. */
  lemma LockoutOutlivesTheFlood(maxEntries: int, t: Tiers<seq<real>>, clock: real, client: string, times: seq<real>,
                                between: seq<seq<Event>>, later: seq<Event>, now: real)
    requires var p := ThrottlePolicy(maxEntries);
      FiveFailures(p, t, clock, client, times, between) && LightBetween(p, t, client, times, between)
    requires times[4] <= now < times[4] + LOGIN_LOCKOUT_SECONDS && Meanwhile(later, client, times[4], now)
    requires var p := ThrottlePolicy(maxEntries);
      Lockouts(p, AfterFailures(p, t, client, times, between, 5), later) < p.Share()
    ensures var p := ThrottlePolicy(maxEntries);
      var store := After(p, AfterFailures(p, t, client, times, between, 5), later);
      0 < RetryAfter(OrEmpty(Read(store, client, now)), now) <==> now - times[0] < LOGIN_LOCKOUT_SECONDS
  {
    var p := ThrottlePolicy(maxEntries);
    var attempts := RecordAfterFailures(maxEntries, p, t, clock, client, times, between, 5);
    assert times[..5] == times && attempts == times;
    RecordAnswers(p, AfterFailures(p, t, client, times, between, 5), client, times, later, now);
  }

  // ------------------------------------------------------------------ is a bound on failures alone enough?

  /** Fewer than c - s failures of others between consecutive failures, and nothing about their lockouts. */
  predicate FewFailuresBetween(p: Policy<seq<real>>, between: seq<seq<Event>>)
    requires |between| == 4
  {
    forall k :: 0 <= k < 4 ==> Failures(between[k]) < p.Cap() - p.Share()
  }

  predicate LockedOut(t: Tiers<seq<real>>, client: string, now: real) {
    0 < RetryAfter(OrEmpty(Read(t, client, now)), now)
  }

  lemma {:induction false} LockoutsAreFailures(p: Policy<seq<real>>, t: Tiers<seq<real>>, ops: seq<Op<seq<real>>>)
    ensures TotalGuardedLoad(p, t, ops) <= TotalLoad(ops)
    decreases |ops|
  {
    if ops != [] {
      LockoutsAreFailures(p, t, ops[..|ops| - 1]);
    }
  }

  lemma LockedOutAtOnce(maxEntries: int, t: Tiers<seq<real>>, clock: real, client: string, times: seq<real>, between: seq<seq<Event>>)
    requires var p := ThrottlePolicy(maxEntries);
      FiveFailures(p, t, clock, client, times, between) && LightBetween(p, t, client, times, between)
    ensures LockedOut(AfterFailures(ThrottlePolicy(maxEntries), t, client, times, between, 5), client, times[4])
  {
    var p := ThrottlePolicy(maxEntries);
    var attempts := RecordAfterFailures(maxEntries, p, t, clock, client, times, between, 5);
    assert times[..5] == times && attempts == times;
    var locked := AfterFailures(p, t, client, times, between, 5);
    StandingIsRead(p, locked, times[4], Entry(client, times[4] + LOGIN_LOCKOUT_SECONDS, times), 0, times[4]);
    FiveDecide(times, times[4]);
  }

  /** For a client the store does not know, the bound on failures is enough whatever the cap. */
  lemma {:induction false} UnknownRecordGrows(maxEntries: int, p: Policy<seq<real>>, t: Tiers<seq<real>>, clock: real, client: string,
                                              times: seq<real>, between: seq<seq<Event>>, k: nat)
    requires p == ThrottlePolicy(maxEntries) && FiveFailures(p, t, clock, client, times, between) && 1 <= k <= 5
    requires FewFailuresBetween(p, between) && Current(t, client, times[0]).None?
    ensures OnRecord(p, AfterFailures(p, t, client, times, between, k), client, times[..k], times[k - 1])
    ensures k < 5 ==> Light(p, AfterFailures(p, t, client, times, between, k), client, between[k - 1])
    decreases k
  {
    var j := k - 1;
    if k == 1 {
      var attempts := NextRecord(maxEntries, p, t, clock, client, [], [], times[0]);
      assert times[..1] == [] + [times[0]] == attempts;
    } else {
      UnknownRecordGrows(maxEntries, p, t, clock, client, times, between, j);
      Gap(p, t, clock, client, times, between, j);
      var before := AfterFailures(p, t, client, times, between, j);
      var attempts := StretchAndFailure(maxEntries, p, before, client, times[..j], times[..j], times[k - 2], between[k - 2], times[j]);
      AllRecent(times[..j], times[j]);
      assert attempts == times[..j] + [times[j]];
    }
    ShortRecordNeedsFewFailures(p, AfterFailures(p, t, client, times, between, k), client, times[..k], times[j], between, j);
  }

  lemma ShortRecordNeedsFewFailures(p: Policy<seq<real>>, t: Tiers<seq<real>>, client: string, attempts: seq<real>, at: real,
                                    between: seq<seq<Event>>, i: nat)
    requires OnRecord(p, t, client, attempts, at) && |between| == 4 && FewFailuresBetween(p, between)
    ensures |attempts| < LOGIN_MAX_FAILURES && i < 4 ==> Light(p, t, client, between[i])
  {
    RecordIsInOneTier(p, t, client, attempts, at);
  }

  lemma UnknownClientsLockOut(maxEntries: int, t: Tiers<seq<real>>, clock: real, client: string, times: seq<real>, between: seq<seq<Event>>)
    requires var p := ThrottlePolicy(maxEntries);
      FiveFailures(p, t, clock, client, times, between) && FewFailuresBetween(p, between)
    requires Current(t, client, times[0]).None?
    ensures LockedOut(AfterFailures(ThrottlePolicy(maxEntries), t, client, times, between, 5), client, times[4])
  {
    var p := ThrottlePolicy(maxEntries);
    forall k | 0 <= k < 4
      ensures Light(p, AfterFailures(p, t, client, times, between, k + 1), client, between[k])
    {
      UnknownRecordGrows(maxEntries, p, t, clock, client, times, between, k + 1);
    }
    LockedOutAtOnce(maxEntries, t, clock, client, times, between);
  }

  /** With an even cap it is enough for every client: then c - s is s. */
  lemma EvenCapsLockOut(maxEntries: int, t: Tiers<seq<real>>, clock: real, client: string, times: seq<real>, between: seq<seq<Event>>)
    requires var p := ThrottlePolicy(maxEntries);
      FiveFailures(p, t, clock, client, times, between) && FewFailuresBetween(p, between) && p.Cap() % 2 == 0
    ensures LockedOut(AfterFailures(ThrottlePolicy(maxEntries), t, client, times, between, 5), client, times[4])
  {
    var p := ThrottlePolicy(maxEntries);
    forall k | 0 <= k < 4
      ensures Light(p, AfterFailures(p, t, client, times, between, k + 1), client, between[k])
    {
      assert Failures(between[k]) < p.Cap() - p.Share();
      LockoutsAreFailures(p, AfterFailures(p, t, client, times, between, k + 1), OpsOf(between[k]));
    }
    LockedOutAtOnce(maxEntries, t, clock, client, times, between);
  }

  // ------------------------------------------------------------------ the bounds are exact

  /** Nothing in the store has expired at `now`. */
  ghost predicate AllLive<V(!new)>(t: Tiers<V>, now: real) {
    forall e :: Held(t, e) ==> now < e.expiresAt
  }

  ghost predicate Unknown<V(!new)>(t: Tiers<V>, key: string) {
    !Has(t.ordinary, key) && !Has(t.guarded, key)
  }

  lemma NothingSwept<V(!new)>(t: Tiers<V>, now: real)
    requires AllLive(t, now)
    ensures Swept(t, now) == t
  {
  }

  lemma {:induction false} NothingRemoved<V(!new)>(entries: seq<Entry<V>>, key: string)
    requires !Has(entries, key)
    ensures Remove(entries, key) == entries
  {
    if entries != [] {
      assert entries[0].key != key;
      assert forall i :: 0 <= i < |entries| - 1 ==> entries[1..][i] == entries[i + 1];
      NothingRemoved(entries[1..], key);
    }
  }

  /** An unknown key is placed at the back of its tier. */
  lemma UnknownIsAppended<V(!new)>(p: Policy<V>, t: Tiers<V>, key: string, value: V, now: real)
    requires AllLive(t, now) && Unknown(t, key)
    ensures Written(p, t, key, value, now) == Trim(Append(p, t, Entry(key, now + p.ttl, value)), p.Cap())
  {
    NothingSwept(t, now);
    NothingRemoved(t.ordinary, key);
    NothingRemoved(t.guarded, key);
  }

  /** In a full store with live entries, an unprotected newcomer pushes out the front of the ordinary tier. */
  lemma NewcomerPushesOne<V(!new)>(p: Policy<V>, t: Tiers<V>, key: string, value: V, now: real)
    requires t.Size() == p.Cap() && t.ordinary != [] && AllLive(t, now) && Unknown(t, key) && !p.Protects(value)
    ensures Written(p, t, key, value, now) == t.(ordinary := t.ordinary[1..] + [Entry(key, now + p.ttl, value)])
  {
    UnknownIsAppended(p, t, key, value, now);
    var placed := Append(p, t, Entry(key, now + p.ttl, value));
    assert placed.ordinary[1..] == t.ordinary[1..] + [Entry(key, now + p.ttl, value)];
  }

  /** In a full protected share with live entries, one more lockout pushes out the oldest. */
  lemma LockoutPushesOne<V(!new)>(p: Policy<V>, t: Tiers<V>, key: string, value: V, now: real)
    requires t.Size() <= p.Cap() && |t.guarded| == p.Share() && AllLive(t, now) && Unknown(t, key) && p.Protects(value)
    ensures Written(p, t, key, value, now) == t.(guarded := t.guarded[1..] + [Entry(key, now + p.ttl, value)])
  {
    UnknownIsAppended(p, t, key, value, now);
  }

  function Newcomers<V>(p: Policy<V>, keys: seq<string>, value: V, now: real): seq<Entry<V>> {
    seq(|keys|, i requires 0 <= i < |keys| => Entry(keys[i], now + p.ttl, value))
  }

  function WriteAll<V>(p: Policy<V>, t: Tiers<V>, keys: seq<string>, value: V, now: real): Tiers<V> {
    if keys == [] then t
    else Written(p, WriteAll(p, t, keys[..|keys| - 1], value, now), keys[|keys| - 1], value, now)
  }

  /** `keys` are different clients, none of them known to the store. */
  ghost predicate Strangers<V(!new)>(t: Tiers<V>, keys: seq<string>) {
    && (forall i, j :: 0 <= i < j < |keys| ==> keys[i] != keys[j])
    && forall i :: 0 <= i < |keys| ==> Unknown(t, keys[i])
  }

  lemma OneMoreNewcomer<V(!new)>(p: Policy<V>, tier: seq<Entry<V>>, keys: seq<string>, value: V, now: real)
    requires 0 < |keys| <= |tier|
    ensures var before := keys[..|keys| - 1];
      (tier[|before|..] + Newcomers(p, before, value, now))[1..] + [Entry(keys[|keys| - 1], now + p.ttl, value)]
      == tier[|keys|..] + Newcomers(p, keys, value, now)
  {
  }

  lemma {:induction false} StrangersPush<V(!new)>(p: Policy<V>, t: Tiers<V>, keys: seq<string>, value: V, now: real)
    requires t.Size() == p.Cap() && |keys| <= |t.ordinary| && AllLive(t, now) && Strangers(t, keys) && !p.Protects(value) && 0.0 < p.ttl
    ensures WriteAll(p, t, keys, value, now) == t.(ordinary := t.ordinary[|keys|..] + Newcomers(p, keys, value, now))
    decreases |keys|
  {
    if keys == [] {
      assert t.ordinary[0..] + [] == t.ordinary;
    } else {
      var before, key := keys[..|keys| - 1], keys[|keys| - 1];
      StrangersPush(p, t, before, value, now);
      var mid := WriteAll(p, t, before, value, now);
      NewcomerPushesOne(p, mid, key, value, now);
      OneMoreNewcomer(p, t.ordinary, keys, value, now);
    }
  }

  lemma {:induction false} LockoutsPush<V(!new)>(p: Policy<V>, t: Tiers<V>, keys: seq<string>, value: V, now: real)
    requires t.Size() <= p.Cap() && |t.guarded| == p.Share() && |keys| <= |t.guarded| && AllLive(t, now)
    requires Strangers(t, keys) && p.Protects(value) && 0.0 < p.ttl
    ensures WriteAll(p, t, keys, value, now) == t.(guarded := t.guarded[|keys|..] + Newcomers(p, keys, value, now))
    decreases |keys|
  {
    if keys == [] {
      assert t.guarded[0..] + [] == t.guarded;
    } else {
      var before, key := keys[..|keys| - 1], keys[|keys| - 1];
      LockoutsPush(p, t, before, value, now);
      var mid := WriteAll(p, t, before, value, now);
      LockoutPushesOne(p, mid, key, value, now);
      OneMoreNewcomer(p, t.guarded, keys, value, now);
    }
  }

  /** One write more than the bound is enough: in a full store whose protected share is full, cap minus share
      newcomers forget even the client written last. */
  lemma CapMinusShareNewcomersForget<V(!new)>(p: Policy<V>, t: Tiers<V>, clock: real, client: string, keys: seq<string>, value: V, now: real)
    requires StoreSound(p, t, clock) && t.Size() == p.Cap() && |t.guarded| == p.Share() && AllLive(t, now)
    requires Strangers(t, keys) && |keys| == p.Cap() - p.Share() && !p.Protects(value) && 0.0 < p.ttl
    requires Has(t.ordinary, client)
    ensures Find(WriteAll(p, t, keys, value, now), client).None?
  {
    StrangersPush(p, t, keys, value, now);
    var after := WriteAll(p, t, keys, value, now);
    var i :| 0 <= i < |t.ordinary| && t.ordinary[i].key == client;
    assert !Has(t.guarded, t.ordinary[i].key);
    assert forall k :: 0 <= k < |keys| ==> keys[k] != client by {
      forall k | 0 <= k < |keys|
        ensures keys[k] != client
      {
        assert Unknown(t, keys[k]);
      }
    }
    assert after.ordinary == [][0..] + Newcomers(p, keys, value, now);
    LookupMeansHas(after.ordinary, client);
    LookupMeansHas(after.guarded, client);
  }

  /** And as many later lockouts as the share holds release a client early. */
  lemma ShareLockoutsRelease<V(!new)>(p: Policy<V>, t: Tiers<V>, clock: real, client: string, keys: seq<string>, value: V, now: real)
    requires StoreSound(p, t, clock) && |t.guarded| == p.Share() && AllLive(t, now)
    requires Strangers(t, keys) && |keys| == p.Share() && p.Protects(value) && 0.0 < p.ttl
    requires Has(t.guarded, client)
    ensures Find(WriteAll(p, t, keys, value, now), client).None?
  {
    LockoutsPush(p, t, keys, value, now);
    var after := WriteAll(p, t, keys, value, now);
    assert !Has(t.ordinary, client) by {
      forall i | 0 <= i < |t.ordinary|
        ensures t.ordinary[i].key != client
      {
        assert !Has(t.guarded, t.ordinary[i].key);
      }
    }
    forall k | 0 <= k < |keys|
      ensures keys[k] != client
    {
      assert Unknown(t, keys[k]);
    }
    assert after.guarded == [][0..] + Newcomers(p, keys, value, now);
    LookupMeansHas(after.ordinary, client);
    LookupMeansHas(after.guarded, client);
  }
}
