/** How many writes of other keys an entry outlives, in each tier. */
module StoreSurvival {
  import opened Prelude
  import opened ExpiringStores
  import opened StoreLaws
  import opened StoreRefinement

  /** The entry stands in the tier with at most `behind` entries after it. */
  ghost predicate Stands<V(!new)>(tier: seq<Entry<V>>, e: Entry<V>, behind: int) {
    exists i :: StandsAt(tier, e, behind, i)
  }

  ghost predicate StandsAt<V(!new)>(tier: seq<Entry<V>>, e: Entry<V>, behind: int, i: int) {
    0 <= i < |tier| && tier[i] == e && |tier| - 1 - i <= behind
  }

  lemma DropKeepsStanding<V(!new)>(tier: seq<Entry<V>>, e: Entry<V>, behind: int, k: nat)
    requires Stands(tier, e, behind) && k <= |tier|
    requires forall i :: 0 <= i < k ==> tier[i] != e
    ensures Stands(tier[k..], e, behind)
  {
    var i :| StandsAt(tier, e, behind, i);
    assert StandsAt(tier[k..], e, behind, i - k);
  }

  /** A live entry survives a sweep in place. */
  lemma SweepKeepsStanding<V(!new)>(tier: seq<Entry<V>>, e: Entry<V>, behind: int, now: real)
    requires Stands(tier, e, behind) && now < e.expiresAt
    ensures Stands(LiveTail(tier, now), e, behind)
  {
    var k := SweepCutsTheFront(tier, now);
    DropKeepsStanding(tier, e, behind, k);
  }

  lemma RemoveKeepsStanding<V(!new)>(tier: seq<Entry<V>>, e: Entry<V>, behind: int, key: string)
    requires Stands(tier, e, behind) && DistinctKeys(tier) && key != e.key
    ensures Stands(Remove(tier, key), e, behind)
  {
    var at := RemoveCutsOne(tier, key);
    var i :| StandsAt(tier, e, behind, i);
    if at == |tier| {
      assert StandsAt(Remove(tier, key), e, behind, i);
    } else if i < at {
      assert StandsAt(Remove(tier, key), e, behind, i);
    } else {
      assert Remove(tier, key)[i - 1] == tier[i];
      assert StandsAt(Remove(tier, key), e, behind, i - 1);
    }
  }

  lemma AppendKeepsStanding<V(!new)>(tier: seq<Entry<V>>, e: Entry<V>, behind: int, last: Entry<V>)
    requires Stands(tier, e, behind)
    ensures Stands(tier + [last], e, behind + 1)
  {
    var i :| StandsAt(tier, e, behind, i);
    assert StandsAt(tier + [last], e, behind + 1, i);
  }

  lemma LastStands<V(!new)>(tier: seq<Entry<V>>, e: Entry<V>)
    ensures Stands(tier + [e], e, 0)
  {
    assert StandsAt(tier + [e], e, 0, |tier|);
  }

  /** Entries the ordinary tier is sure to have room for. */
  ghost function Room<V(!new)>(p: Policy<V>): (r: nat)
    ensures p.Cap() - p.Share() <= r <= p.Cap()
  {
    if p.protect.None? then p.Cap() else p.Cap() - p.Share()
  }

  lemma GuardedLeavesRoom<V(!new)>(p: Policy<V>, t: Tiers<V>, clock: real)
    requires PlacedSound(p, t, clock)
    ensures Room(p) + |t.guarded| <= p.Cap()
  {
    if t.guarded != [] {
      assert p.Protects(t.guarded[0].value);
    }
  }

  /** Trimming spares an ordinary entry with room for everything behind it. */
  lemma TrimKeepsStanding<V(!new)>(p: Policy<V>, t: Tiers<V>, e: Entry<V>, behind: int, clock: real)
    requires PlacedSound(p, t, clock) && Stands(t.ordinary, e, behind) && behind < Room(p)
    ensures Stands(Trim(t, p.Cap()).ordinary, e, behind)
  {
    GuardedLeavesRoom(p, t, clock);
    TrimCutsFronts(t, p.Cap());
    var k := |t.ordinary| - |Trim(t, p.Cap()).ordinary|;
    DropKeepsStanding(t.ordinary, e, behind, k);
  }

  // ------------------------------------------------------------------ operations of other keys

  /** The operation is a read, of whatever key, or about another key. */
  predicate Foreign<V>(op: Op<V>, key: string) {
    op.Measure? || op.Look? || op.key != key
  }

  /** Writes: the traffic an ordinary entry has to outlive. */
  function Load<V>(op: Op<V>): nat {
    if op.Writes() then 1 else 0
  }

  /** Placements in the protected tier: the traffic a protected entry has to outlive. */
  function GuardedLoad<V>(p: Policy<V>, t: Tiers<V>, op: Op<V>): nat {
    if op.Writes() && p.Protects(Shown(t, op).value) then 1 else 0
  }

  lemma OrdinaryOutlivesWrite<V(!new)>(p: Policy<V>, t: Tiers<V>, clock: real, e: Entry<V>, behind: int, key: string, value: V, now: real)
    requires StoreSound(p, t, clock) && clock <= now && key != e.key && now < e.expiresAt
    requires Stands(t.ordinary, e, behind) && behind + 1 < Room(p)
    ensures Stands(Written(p, t, key, value, now).ordinary, e, behind + 1)
  {
    SweepKeepsStore(p, t, clock, now);
    var swept := Swept(t, now);
    SweepKeepsStanding(t.ordinary, e, behind, now);
    RemoveKeepsStanding(swept.ordinary, e, behind, key);
    PlaceKeepsStore(p, swept, key, value, now);
    var placed := Place(p, swept, key, value, now);
    AppendKeepsStanding(Remove(swept.ordinary, key), e, behind, Entry(key, now + p.ttl, value));
    assert Stands(placed.ordinary, e, behind + 1) by {
      if p.Protects(value) {
        var i :| StandsAt(placed.ordinary, e, behind, i);
        assert StandsAt(placed.ordinary, e, behind + 1, i);
      }
    }
    TrimKeepsStanding(p, placed, e, behind + 1, now);
  }

  lemma GuardedOutlivesAppend<V(!new)>(p: Policy<V>, t: Tiers<V>, e: Entry<V>, behind: int, last: Entry<V>)
    requires DistinctKeys(t.guarded) && Stands(t.guarded, e, behind)
    requires p.Protects(last.value) ==> behind + 1 < p.Share()
    ensures Stands(Append(p, t, last).guarded, e, behind + if p.Protects(last.value) then 1 else 0)
  {
    if p.Protects(last.value) {
      var drop := if p.Share() <= |t.guarded| then 1 else 0;
      DropKeepsStanding(t.guarded, e, behind, drop);
      AppendKeepsStanding(t.guarded[drop..], e, behind, last);
      assert Append(p, t, last).guarded == t.guarded[drop..] + [last];
    }
  }

  lemma GuardedOutlivesPlace<V(!new)>(p: Policy<V>, swept: Tiers<V>, e: Entry<V>, behind: int, key: string, value: V, now: real,
                                      placed: Tiers<V>)
    requires StoreSound(p, swept, now) && key != e.key && placed == Place(p, swept, key, value, now)
    requires Stands(swept.guarded, e, behind) && (p.Protects(value) ==> behind + 1 < p.Share())
    ensures Stands(placed.guarded, e, behind + if p.Protects(value) then 1 else 0)
    ensures PlacedSound(p, placed, now)
  {
    RemoveKeepsStanding(swept.guarded, e, behind, key);
    PlaceKeepsStore(p, swept, key, value, now);
    RemoveKeepsTier(p, swept.guarded, true, now, key);
    GuardedOutlivesAppend(p, Tiers(Remove(swept.ordinary, key), Remove(swept.guarded, key)), e, behind, Entry(key, now + p.ttl, value));
  }

  lemma GuardedOutlivesWrite<V(!new)>(p: Policy<V>, t: Tiers<V>, clock: real, e: Entry<V>, behind: int, key: string, value: V, now: real)
    requires StoreSound(p, t, clock) && clock <= now && key != e.key && now < e.expiresAt
    requires Stands(t.guarded, e, behind) && (p.Protects(value) ==> behind + 1 < p.Share())
    ensures Stands(Written(p, t, key, value, now).guarded, e, behind + if p.Protects(value) then 1 else 0)
  {
    SweepKeepsStore(p, t, clock, now);
    SweepKeepsStanding(t.guarded, e, behind, now);
    var placed := Place(p, Swept(t, now), key, value, now);
    GuardedOutlivesPlace(p, Swept(t, now), e, behind, key, value, now, placed);
    TrimKeepsStore(p, placed, now);
  }

  /** The popped key is another one: the entry stays where it stands. */
  lemma OutlivesPop<V(!new)>(p: Policy<V>, t: Tiers<V>, clock: real, e: Entry<V>, behind: int, key: string, now: real)
    requires StoreSound(p, t, clock) && clock <= now && key != e.key && now < e.expiresAt
    ensures Stands(t.ordinary, e, behind) ==> Stands(Popped(t, key, now).ordinary, e, behind)
    ensures Stands(t.guarded, e, behind) ==> Stands(Popped(t, key, now).guarded, e, behind)
  {
    SweepKeepsStore(p, t, clock, now);
    var swept := Swept(t, now);
    if Stands(t.ordinary, e, behind) {
      SweepKeepsStanding(t.ordinary, e, behind, now);
      RemoveKeepsStanding(swept.ordinary, e, behind, key);
    }
    if Stands(t.guarded, e, behind) {
      SweepKeepsStanding(t.guarded, e, behind, now);
      RemoveKeepsStanding(swept.guarded, e, behind, key);
    }
  }

  lemma OrdinaryOutlives<V(!new)>(p: Policy<V>, t: Tiers<V>, clock: real, e: Entry<V>, behind: int, op: Op<V>)
    requires StoreSound(p, t, clock) && clock <= op.at < e.expiresAt && Foreign(op, e.key)
    requires Stands(t.ordinary, e, behind) && behind + Load(op) < Room(p)
    ensures Stands(Apply(p, t, op).ordinary, e, behind + Load(op))
  {
    if op.Writes() {
      OrdinaryOutlivesWrite(p, t, clock, e, behind, op.key, Shown(t, op).value, op.at);
    } else if op.Take? {
      OutlivesPop(p, t, clock, e, behind, op.key, op.at);
    } else {
      SweepKeepsStanding(t.ordinary, e, behind, op.at);
    }
  }

  lemma GuardedOutlives<V(!new)>(p: Policy<V>, t: Tiers<V>, clock: real, e: Entry<V>, behind: int, op: Op<V>)
    requires StoreSound(p, t, clock) && clock <= op.at < e.expiresAt && Foreign(op, e.key)
    requires Stands(t.guarded, e, behind) && behind + GuardedLoad(p, t, op) < p.Share()
    ensures Stands(Apply(p, t, op).guarded, e, behind + GuardedLoad(p, t, op))
  {
    if op.Writes() {
      GuardedOutlivesWrite(p, t, clock, e, behind, op.key, Shown(t, op).value, op.at);
    } else if op.Take? {
      OutlivesPop(p, t, clock, e, behind, op.key, op.at);
    } else {
      SweepKeepsStanding(t.guarded, e, behind, op.at);
    }
  }

  // ------------------------------------------------------------------ stretches of foreign traffic

  function ApplyAll<V>(p: Policy<V>, t: Tiers<V>, ops: seq<Op<V>>): Tiers<V> {
    if ops == [] then t else Apply(p, ApplyAll(p, t, ops[..|ops| - 1]), ops[|ops| - 1])
  }

  function TotalLoad<V>(ops: seq<Op<V>>): nat {
    if ops == [] then 0 else TotalLoad(ops[..|ops| - 1]) + Load(ops[|ops| - 1])
  }

  function TotalGuardedLoad<V>(p: Policy<V>, t: Tiers<V>, ops: seq<Op<V>>): nat {
    if ops == [] then 0
    else TotalGuardedLoad(p, t, ops[..|ops| - 1]) + GuardedLoad(p, ApplyAll(p, t, ops[..|ops| - 1]), ops[|ops| - 1])
  }

  /** Traffic about other keys, in order, between `from` and the expiry of the entry. */
  ghost predicate ForeignTraffic<V(!new)>(ops: seq<Op<V>>, key: string, from: real, expiry: real) {
    && Monotone(ops)
    && forall i :: 0 <= i < |ops| ==> Foreign(ops[i], key) && from <= ops[i].at < expiry
  }

  lemma TrafficBefore<V(!new)>(ops: seq<Op<V>>, key: string, from: real, expiry: real)
    requires ops != [] && ForeignTraffic(ops, key, from, expiry)
    ensures var before, op := ops[..|ops| - 1], ops[|ops| - 1];
      ForeignTraffic(before, key, from, expiry) && Foreign(op, key) && ClockOf(before, from) <= op.at < expiry && ClockOf(ops, from) == op.at
  {
  }

  lemma {:induction false} TrafficKeepsStore<V(!new)>(p: Policy<V>, t: Tiers<V>, from: real, key: string, expiry: real, ops: seq<Op<V>>)
    requires StoreSound(p, t, from) && ForeignTraffic(ops, key, from, expiry)
    ensures StoreSound(p, ApplyAll(p, t, ops), ClockOf(ops, from))
    decreases |ops|
  {
    if ops != [] {
      TrafficBefore(ops, key, from, expiry);
      TrafficKeepsStore(p, t, from, key, expiry, ops[..|ops| - 1]);
      ApplyKeepsStore(p, ApplyAll(p, t, ops[..|ops| - 1]), ClockOf(ops[..|ops| - 1], from), ops[|ops| - 1]);
    }
  }

  /** An ordinary entry at the back outlives fewer writes of other keys than there is room: cap minus share, or
      the whole cap where nothing is ever protected. */
  lemma {:induction false} OrdinaryOutlivesTraffic<V(!new)>(p: Policy<V>, t: Tiers<V>, from: real, e: Entry<V>, ops: seq<Op<V>>)
    requires StoreSound(p, t, from) && ForeignTraffic(ops, e.key, from, e.expiresAt)
    requires Stands(t.ordinary, e, 0) && TotalLoad(ops) < Room(p)
    ensures Stands(ApplyAll(p, t, ops).ordinary, e, TotalLoad(ops))
    decreases |ops|
  {
    if ops != [] {
      var before, op := ops[..|ops| - 1], ops[|ops| - 1];
      TrafficBefore(ops, e.key, from, e.expiresAt);
      OrdinaryOutlivesTraffic(p, t, from, e, before);
      TrafficKeepsStore(p, t, from, e.key, e.expiresAt, before);
      OrdinaryOutlives(p, ApplyAll(p, t, before), ClockOf(before, from), e, TotalLoad(before), op);
    }
  }

  /** The last operation of a stretch, given what the others left. */
  lemma GuardedOutlivesLast<V(!new)>(p: Policy<V>, t: Tiers<V>, clock: real, e: Entry<V>, ops: seq<Op<V>>, mid: Tiers<V>, behind: nat)
    requires ops != [] && mid == ApplyAll(p, t, ops[..|ops| - 1]) && behind == TotalGuardedLoad(p, t, ops[..|ops| - 1])
    requires StoreSound(p, mid, clock) && clock <= ops[|ops| - 1].at < e.expiresAt && Foreign(ops[|ops| - 1], e.key)
    requires Stands(mid.guarded, e, behind) && TotalGuardedLoad(p, t, ops) < p.Share()
    ensures Stands(ApplyAll(p, t, ops).guarded, e, TotalGuardedLoad(p, t, ops))
  {
    GuardedOutlives(p, mid, clock, e, behind, ops[|ops| - 1]);
  }

  /** A protected entry at the back outlives fewer than share later protected placements, and any other writes. */
  lemma {:induction false} GuardedOutlivesTraffic<V(!new)>(p: Policy<V>, t: Tiers<V>, from: real, e: Entry<V>, ops: seq<Op<V>>)
    requires StoreSound(p, t, from) && ForeignTraffic(ops, e.key, from, e.expiresAt)
    requires Stands(t.guarded, e, 0) && TotalGuardedLoad(p, t, ops) < p.Share()
    ensures Stands(ApplyAll(p, t, ops).guarded, e, TotalGuardedLoad(p, t, ops))
    decreases |ops|
  {
    if ops != [] {
      var before := ops[..|ops| - 1];
      TrafficBefore(ops, e.key, from, e.expiresAt);
      var mid := ApplyAll(p, t, before);
      GuardedOutlivesTraffic(p, t, from, e, before);
      TrafficKeepsStore(p, t, from, e.key, e.expiresAt, before);
      GuardedOutlivesLast(p, t, ClockOf(before, from), e, ops, mid, TotalGuardedLoad(p, t, before));
    }
  }
}
