/** For which caps a bound on the failures of others is enough to lock a client out: exactly the even ones. With an odd
    cap c = 2s + 1 as many failures as the share can each complete a lockout and push a full record out. */
module FloodLimits {
  import opened Prelude
  import opened ExpiringStores
  import opened StoreLaws
  import opened StoreRefinement
  import opened StoreSurvival
  import opened Throttling
  import opened LoginFlood

  /** Client number `i`. */
  function Name(i: nat): string {
    seq(i, _ => 'x')
  }

  function Zeros(n: nat): seq<real> {
    seq(n, _ => 0.0)
  }

  /** Client `i` with `n` failures at instant 0. */
  function Holder(i: nat, n: nat): Entry<seq<real>> {
    Entry(Name(i), LOGIN_LOCKOUT_SECONDS, Zeros(n))
  }

  /** Clients `from`, `from + 1`, ..., each with `n` failures. */
  function Block(from: nat, count: nat, n: nat): (block: seq<Entry<seq<real>>>)
    ensures |block| == count && forall i :: 0 <= i < count ==> block[i] == Holder(from + i, n)
  {
    seq(count, i requires 0 <= i < count => Holder(from + i, n))
  }

  lemma NamesDiffer(i: nat, j: nat)
    ensures Name(i) == Name(j) ==> i == j
  {
    assert |Name(i)| == i && |Name(j)| == j;
  }

  lemma BlockHas(from: nat, count: nat, n: nat, i: nat)
    ensures Has(Block(from, count, n), Name(i)) <==> from <= i < from + count
  {
    var block := Block(from, count, n);
    if from <= i < from + count {
      assert block[i - from].key == Name(i);
    }
    if k :| 0 <= k < |block| && block[k].key == Name(i) {
      NamesDiffer(from + k, i);
    }
  }

  lemma BlockIsSound(maxEntries: int, from: nat, count: nat, n: nat)
    ensures TierSound(ThrottlePolicy(maxEntries), Block(from, count, n), n >= LOGIN_MAX_FAILURES, 0.0)
  {
    var block := Block(from, count, n);
    forall i, j | 0 <= i < j < |block|
      ensures block[i].key != block[j].key
    {
      NamesDiffer(from + i, from + j);
    }
  }

  /** After `j` of the strangers `s` .. `2s - 1` have completed their lockouts. */
  function Pushed(s: nat, j: nat): Tiers<seq<real>>
    requires j <= s
  {
    Tiers(Block(s + j, s - j, 4), Block(j, s, 5))
  }

  lemma PushedIsSound(s: nat, j: nat)
    requires 1 <= s && j <= s
    ensures StoreSound(ThrottlePolicy(2 * s + 1), Pushed(s, j), 0.0)
  {
    var t := Pushed(s, j);
    BlockIsSound(2 * s + 1, s + j, s - j, 4);
    BlockIsSound(2 * s + 1, j, s, 5);
    forall i | 0 <= i < |t.ordinary|
      ensures !Has(t.guarded, t.ordinary[i].key)
    {
      BlockHas(j, s, 5, s + j + i);
    }
  }

  lemma {:induction false} ZerosAreRecent(n: nat)
    ensures Recent(Zeros(n), 0.0) == Zeros(n)
  {
    AllRecent(Zeros(n), 0.0);
  }

  /** What a failure at instant 0 makes of `n` failures at instant 0. */
  lemma OneMoreZero(n: nat)
    requires n <= LOGIN_MAX_FAILURES
    ensures Last(Recent(Zeros(n), 0.0) + [0.0]) == Zeros(if n < LOGIN_MAX_FAILURES then n + 1 else n)
  {
    ZerosAreRecent(n);
  }

  lemma PushedIsLive(s: nat, j: nat)
    requires j <= s
    ensures AllLive(Pushed(s, j), 0.0)
  {
  }

  lemma RemoveFirst(from: nat, count: nat, n: nat)
    requires 0 < count
    ensures Remove(Block(from, count, n), Name(from)) == Block(from + 1, count - 1, n)
  {
    var block := Block(from, count, n);
    assert block[0].key == Name(from);
    assert block[1..] == Block(from + 1, count - 1, n);
  }

  lemma FoundIn(s: nat, j: nat, i: nat, e: Entry<seq<real>>)
    requires 1 <= s && j <= s && Held(Pushed(s, j), e) && e.key == Name(i)
    ensures Current(Pushed(s, j), Name(i), 0.0) == Some(e.value)
  {
    PushedIsSound(s, j);
    PushedIsLive(s, j);
    ReadIsHeld(ThrottlePolicy(2 * s + 1), Pushed(s, j), 0.0, Name(i), 0.0);
  }

  /** The fifth failure of stranger `s + j` moves it to the protected tier and pushes the oldest record out. */
  lemma StrangerPushes(s: nat, j: nat)
    requires 1 <= s && j < s
    ensures Apply(ThrottlePolicy(2 * s + 1), Pushed(s, j), Failure(Name(s + j), 0.0)) == Pushed(s, j + 1)
  {
    var p, t, key := ThrottlePolicy(2 * s + 1), Pushed(s, j), Name(s + j);
    assert t.ordinary[0] == Holder(s + j, 4);
    FoundIn(s, j, s + j, Holder(s + j, 4));
    OneMoreZero(4);
    PushedIsLive(s, j);
    NothingSwept(t, 0.0);
    RemoveFirst(s + j, s - j, 4);
    BlockHas(j, s, 5, s + j);
    NothingRemoved(t.guarded, key);
    var placed := Place(p, t, key, Zeros(5), 0.0);
    assert Block(j, s, 5)[1..] + [Holder(s + j, 5)] == Block(j + 1, s, 5);
    assert placed == Pushed(s, j + 1);
  }

  /** The client is number s - 1, the newest full record: its own failure changes nothing. */
  lemma ClientFails(s: nat)
    requires 1 <= s
    ensures Apply(ThrottlePolicy(2 * s + 1), Pushed(s, 0), Failure(Name(s - 1), 0.0)) == Pushed(s, 0)
  {
    var p, t := ThrottlePolicy(2 * s + 1), Pushed(s, 0);
    assert t.guarded[s - 1] == Holder(s - 1, 5);
    FoundIn(s, 0, s - 1, Holder(s - 1, 5));
    OneMoreZero(5);
    PushedIsLive(s, 0);
    NothingSwept(t, 0.0);
    ClientIsReplaced(s);
  }

  lemma ClientIsReplaced(s: nat)
    requires 1 <= s
    ensures Place(ThrottlePolicy(2 * s + 1), Pushed(s, 0), Name(s - 1), Zeros(5), 0.0) == Pushed(s, 0)
  {
    var t, last := Pushed(s, 0), Holder(s - 1, 5);
    BlockHas(s, s, 4, s - 1);
    NothingRemoved(t.ordinary, Name(s - 1));
    PushedIsSound(s, 0);
    RemoveLast(t.guarded, s - 1);
    assert t.guarded[..s - 1] + [last] == t.guarded;
  }

  lemma RemoveLast(entries: seq<Entry<seq<real>>>, at: nat)
    requires DistinctKeys(entries) && at == |entries| - 1
    ensures Remove(entries, entries[at].key) == entries[..at]
  {
    var key := entries[at].key;
    var cut := RemoveCutsOne(entries, key);
    assert Has(entries, key);
    assert cut == at;
  }

  function Strangers(s: nat, j: nat): (traffic: seq<Event>)
    ensures |traffic| == j && forall i :: 0 <= i < j ==> traffic[i] == Event.Failed(Name(s + i), 0.0)
  {
    seq(j, i requires 0 <= i < j => Event.Failed(Name(s + i), 0.0))
  }

  lemma OneMoreEvent(p: Policy<seq<real>>, t: Tiers<seq<real>>, front: seq<Event>, client: string, at: real)
    ensures var traffic := front + [Event.Failed(client, at)];
      After(p, t, traffic) == Apply(p, After(p, t, front), Failure(client, at)) && Failures(traffic) == Failures(front) + 1
  {
    var traffic := front + [Event.Failed(client, at)];
    assert traffic[..|traffic| - 1] == front;
  }

  lemma OneMoreStranger(s: nat, j: nat)
    ensures Strangers(s, j + 1) == Strangers(s, j) + [Event.Failed(Name(s + j), 0.0)]
  {
  }

  lemma {:induction false} StrangersPushAll(s: nat, j: nat, p: Policy<seq<real>>)
    requires 1 <= s && j <= s && p == ThrottlePolicy(2 * s + 1)
    ensures After(p, Pushed(s, 0), Strangers(s, j)) == Pushed(s, j)
    ensures Failures(Strangers(s, j)) == j
  {
    if j > 0 {
      var i := j - 1;
      StrangersPushAll(s, i, p);
      OneMoreStranger(s, i);
      OneMoreEvent(p, Pushed(s, 0), Strangers(s, i), Name(s + i), 0.0);
      StrangerPushes(s, i);
    }
  }

  /** The traffic of the flood: every stranger between the first two failures, nobody after. */
  function Flood(s: nat): seq<seq<Event>> {
    [Strangers(s, s), [], [], []]
  }

  lemma StrangersMeanwhile(s: nat)
    requires 1 <= s
    ensures Meanwhile(Strangers(s, s), Name(s - 1), 0.0, 0.0)
  {
    var traffic := Strangers(s, s);
    forall i | 0 <= i < |traffic|
      ensures traffic[i].client != Name(s - 1)
    {
      NamesDiffer(s + i, s - 1);
    }
  }

  lemma FloodIsFiveFailures(s: nat)
    requires 1 <= s
    ensures FiveFailures(ThrottlePolicy(2 * s + 1), Pushed(s, 0), 0.0, Name(s - 1), Zeros(5), Flood(s))
    ensures FewFailuresBetween(ThrottlePolicy(2 * s + 1), Flood(s))
  {
    PushedIsSound(s, 0);
    StrangersPushAll(s, s, ThrottlePolicy(2 * s + 1));
    StrangersMeanwhile(s);
    var between, times := Flood(s), Zeros(5);
    forall k | 0 <= k < 4
      ensures Meanwhile(between[k], Name(s - 1), times[k], times[k + 1]) && Failures(between[k]) <= s
    {
      assert k > 0 ==> between[k] == [];
    }
  }

  lemma ClientIsForgotten(s: nat)
    requires 1 <= s
    ensures Current(Pushed(s, s), Name(s - 1), 0.0).None?
  {
    var p, client, t := ThrottlePolicy(2 * s + 1), Name(s - 1), Pushed(s, s);
    PushedIsSound(s, s);
    BlockHas(s, s, 5, s - 1);
    ReadIsHeld(p, t, 0.0, client, 0.0);
  }

  lemma SecondFailure(s: nat)
    requires 1 <= s
    ensures var p := ThrottlePolicy(2 * s + 1);
      AfterFailures(p, Pushed(s, 0), Name(s - 1), Zeros(5), Flood(s), 2) == Apply(p, Pushed(s, s), Failure(Name(s - 1), 0.0))
  {
    var p, client := ThrottlePolicy(2 * s + 1), Name(s - 1);
    ClientFails(s);
    StrangersPushAll(s, s, ThrottlePolicy(2 * s + 1));
    assert AfterFailures(p, Pushed(s, 0), client, Zeros(5), Flood(s), 0) == Pushed(s, 0);
    assert AfterFailures(p, Pushed(s, 0), client, Zeros(5), Flood(s), 1) == Pushed(s, 0);
  }

  /** The first failure of a client the store has forgotten starts a new record. */
  lemma StartsOver(maxEntries: int, p: Policy<seq<real>>, t: Tiers<seq<real>>, client: string)
    requires p == ThrottlePolicy(maxEntries) && 2 <= p.Cap()
    requires StoreSound(p, t, 0.0) && Current(t, client, 0.0).None?
    ensures OnRecord(p, Apply(p, t, Failure(client, 0.0)), client, Zeros(1), 0.0)
  {
    OneMoreZero(0);
    assert Zeros(0) == [];
    var attempts := NextRecord(maxEntries, p, t, 0.0, client, [], [], 0.0);
  }

  lemma OneMoreFailure(maxEntries: int, p: Policy<seq<real>>, t: Tiers<seq<real>>, client: string, k: nat)
    requires p == ThrottlePolicy(maxEntries) && 2 <= p.Cap() && p.Share() < p.Cap() && 1 <= k < 4
    requires OnRecord(p, t, client, Zeros(k), 0.0)
    ensures OnRecord(p, Apply(p, After(p, t, []), Failure(client, 0.0)), client, Zeros(k + 1), 0.0)
  {
    var attempts := StretchAndFailure(maxEntries, p, t, client, Zeros(k), Zeros(k), 0.0, [], 0.0);
    OneMoreZero(k);
  }

  /** The three failures left make it four, one short. */
  lemma {:induction false} FourInTheEnd(s: nat, p: Policy<seq<real>>, client: string, k: nat)
    requires 1 <= s && 2 <= k <= 5 && p == ThrottlePolicy(2 * s + 1) && client == Name(s - 1)
    ensures OnRecord(p, AfterFailures(p, Pushed(s, 0), client, Zeros(5), Flood(s), k), client, Zeros(k - 1), 0.0)
  {
    if k == 2 {
      SecondFailure(s);
      ClientIsForgotten(s);
      PushedIsSound(s, s);
      StartsOver(2 * s + 1, p, Pushed(s, s), client);
    } else {
      FourInTheEnd(s, p, client, k - 1);
      OneMoreFailure(2 * s + 1, p, AfterFailures(p, Pushed(s, 0), client, Zeros(5), Flood(s), k - 1), client, k - 2);
      assert Flood(s)[k - 2] == [] && Zeros(5)[k - 1] == 0.0;
    }
  }

  /** With an odd cap a client the store knows fails five times in a minute, with fewer than c - s failures of others
      between any two, and is not locked out. For c = 3 a single failure of one other client is enough. */
  lemma OddCapsCanBeFlooded(s: nat)
    requires 1 <= s
    ensures var p := ThrottlePolicy(2 * s + 1);
      && FiveFailures(p, Pushed(s, 0), 0.0, Name(s - 1), Zeros(5), Flood(s)) && FewFailuresBetween(p, Flood(s))
      && !LockedOut(AfterFailures(p, Pushed(s, 0), Name(s - 1), Zeros(5), Flood(s), 5), Name(s - 1), 0.0)
  {
    var p, client := ThrottlePolicy(2 * s + 1), Name(s - 1);
    FloodIsFiveFailures(s);
    FourInTheEnd(s, p, client, 5);
    var t := AfterFailures(p, Pushed(s, 0), client, Zeros(5), Flood(s), 5);
    StandingIsRead(p, t, 0.0, Entry(client, LOGIN_LOCKOUT_SECONDS, Zeros(4)), 0, 0.0);
    ZerosAreRecent(4);
  }

  /** Five failures in a minute with fewer than c - s failures of others between any two always lock the client out. */
  ghost predicate FewFailuresSuffice(maxEntries: int) {
    forall t, clock, client, times, between ::
      FiveFailures(ThrottlePolicy(maxEntries), t, clock, client, times, between)
      && FewFailuresBetween(ThrottlePolicy(maxEntries), between)
      ==> LockedOut(AfterFailures(ThrottlePolicy(maxEntries), t, client, times, between, 5), client, times[4])
  }

  lemma EvenCapsSuffice(maxEntries: int)
    requires 2 <= ThrottlePolicy(maxEntries).Cap() && ThrottlePolicy(maxEntries).Cap() % 2 == 0
    ensures FewFailuresSuffice(maxEntries)
  {
    forall t, clock, client, times, between |
      FiveFailures(ThrottlePolicy(maxEntries), t, clock, client, times, between)
      && FewFailuresBetween(ThrottlePolicy(maxEntries), between)
      ensures LockedOut(AfterFailures(ThrottlePolicy(maxEntries), t, client, times, between, 5), client, times[4])
    {
      EvenCapsLockOut(maxEntries, t, clock, client, times, between);
    }
  }

  lemma OddCapsDoNotSuffice(s: nat)
    requires 1 <= s
    ensures !FewFailuresSuffice(2 * s + 1)
  {
    OddCapsCanBeFlooded(s);
  }

  /** That holds exactly for the even caps. */
  lemma FewFailuresSufficeIff(maxEntries: int)
    requires 2 <= ThrottlePolicy(maxEntries).Cap()
    ensures FewFailuresSuffice(maxEntries) <==> ThrottlePolicy(maxEntries).Cap() % 2 == 0
  {
    if ThrottlePolicy(maxEntries).Cap() % 2 == 0 {
      EvenCapsSuffice(maxEntries);
    } else {
      OddCapsDoNotSuffice(maxEntries / 2);
      assert maxEntries == 2 * (maxEntries / 2) + 1;
    }
  }
}
