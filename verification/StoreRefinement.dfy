/** The two-tier store refines an unbounded expiring map, at a bounded amortised cost. */
module StoreRefinement {
  import opened Prelude
  import opened ExpiringStores
  import opened StoreLaws

  ghost predicate Held<V(!new)>(t: Tiers<V>, e: Entry<V>) {
    e in t.ordinary || e in t.guarded
  }

  /** The key identifies the entry: what a lookup finds is what the store holds. */
  lemma FindIsHeld<V(!new)>(p: Policy<V>, t: Tiers<V>, clock: real, e: Entry<V>)
    requires StoreSound(p, t, clock)
    ensures Find(t, e.key) == Some(e) <==> Held(t, e)
  {
    LookupMeansHas(t.ordinary, e.key);
    LookupMeansHas(t.guarded, e.key);
    if i :| 0 <= i < |t.ordinary| && t.ordinary[i].key == e.key {
      assert !Has(t.guarded, t.ordinary[i].key);
    }
  }

  lemma NothingFound<V(!new)>(t: Tiers<V>, key: string)
    ensures Find(t, key).Some? ==> Held(t, Find(t, key).value) && Find(t, key).value.key == key
  {
    LookupMeansHas(t.ordinary, key);
    LookupMeansHas(t.guarded, key);
  }

  lemma SweptHolds<V(!new)>(p: Policy<V>, t: Tiers<V>, clock: real, now: real)
    requires StoreSound(p, t, clock)
    ensures forall e :: Held(Swept(t, now), e) <==> Held(t, e) && now < e.expiresAt
  {
    SweepIsExact(p, t.ordinary, false, clock, now);
    SweepIsExact(p, t.guarded, true, clock, now);
  }

  /** A read answers the live entry the store holds under the key, if there is one. */
  lemma ReadIsHeld<V(!new)>(p: Policy<V>, t: Tiers<V>, clock: real, key: string, now: real)
    requires StoreSound(p, t, clock) && clock <= now
    ensures Read(t, key, now) == Current(t, key, now)
    ensures forall e :: Held(t, e) && e.key == key && now < e.expiresAt ==> Read(t, key, now) == Some(e.value)
    ensures Read(t, key, now).Some? ==> exists e :: Held(t, e) && e.key == key && now < e.expiresAt && Read(t, key, now) == Some(e.value)
  {
    SweepKeepsStore(p, t, clock, now);
    SweptHolds(p, t, clock, now);
    var swept := Swept(t, now);
    NothingFound(swept, key);
    forall e | Held(t, e) && e.key == key && now < e.expiresAt
      ensures Find(swept, key) == Some(e)
    {
      FindIsHeld(p, swept, now, e);
    }
  }

  // ------------------------------------------------------------------ a key just written

  /** A key just written is in the store exactly when it is protected, the cap is at least two, or nothing is protected. */
  lemma JustWrittenIsPresentIff<V(!new)>(p: Policy<V>, t: Tiers<V>, clock: real, key: string, value: V, now: real)
    requires StoreSound(p, t, clock) && clock <= now && 0.0 < p.ttl
    ensures Read(Written(p, t, key, value, now), key, now) == Some(value)
            <==> p.Protects(value) || 2 <= p.Cap() || Remove(Swept(t, now).guarded, key) == []
  {
    var entry := Entry(key, now + p.ttl, value);
    var after := Written(p, t, key, value, now);
    WriteKeepsStore(p, t, clock, key, value, now);
    WrittenIsHeldIff(p, t, clock, key, value, now);
    ReadIsHeld(p, after, now, key, now);
    if Held(after, entry) {
      assert Read(after, key, now) == Some(entry.value);
    } else {
      HeldWasPlaced(p, t, clock, key, value, now);
    }
  }

  lemma WrittenIsHeldIff<V(!new)>(p: Policy<V>, t: Tiers<V>, clock: real, key: string, value: V, now: real)
    requires StoreSound(p, t, clock) && clock <= now
    ensures Held(Written(p, t, key, value, now), Entry(key, now + p.ttl, value))
            <==> p.Protects(value) || 2 <= p.Cap() || Remove(Swept(t, now).guarded, key) == []
  {
    SweepKeepsStore(p, t, clock, now);
    var bare := Cleared(p, Swept(t, now), key, now);
    AppendedIsHeldIff(p, bare, Entry(key, now + p.ttl, value));
  }

  /** Appended to tiers that do not know its key, an entry outlives the trimming or not. */
  lemma AppendedIsHeldIff<V(!new)>(p: Policy<V>, bare: Tiers<V>, entry: Entry<V>)
    requires |bare.guarded| <= p.Share() && !Has(bare.guarded, entry.key)
    ensures Held(Trim(Append(p, bare, entry), p.Cap()), entry)
            <==> p.Protects(entry.value) || 2 <= p.Cap() || bare.guarded == []
  {
    var placed := Append(p, bare, entry);
    TrimCutsFronts(placed, p.Cap());
    var after := Trim(placed, p.Cap());
    if p.Protects(entry.value) {
      assert placed.guarded[|placed.guarded| - 1] == entry;
      assert after.guarded == placed.guarded;
    } else {
      var k := FirstCut(placed, p.Cap());
      assert placed.guarded == bare.guarded && after.guarded == bare.guarded;
      assert placed.ordinary[|bare.ordinary|] == entry;
      if k <= |bare.ordinary| {
        assert after.ordinary[|bare.ordinary| - k] == entry;
      }
    }
  }

  /** A write leaves the new entry and older entries of other keys, nothing else. */
  lemma HeldWasPlaced<V(!new)>(p: Policy<V>, t: Tiers<V>, clock: real, key: string, value: V, now: real)
    requires StoreSound(p, t, clock) && clock <= now
    ensures forall e :: Held(Written(p, t, key, value, now), e) ==>
      e == Entry(key, now + p.ttl, value) || (Held(t, e) && e.key != key && now < e.expiresAt)
  {
    SweepKeepsStore(p, t, clock, now);
    SweptHolds(p, t, clock, now);
    PlacedInSwept(p, Swept(t, now), key, value, now, Entry(key, now + p.ttl, value), Written(p, t, key, value, now));
  }

  lemma PlacedInSwept<V(!new)>(p: Policy<V>, swept: Tiers<V>, key: string, value: V, now: real, entry: Entry<V>, after: Tiers<V>)
    requires StoreSound(p, swept, now) && entry == Entry(key, now + p.ttl, value)
    requires after == Trim(Place(p, swept, key, value, now), p.Cap())
    ensures forall e :: Held(after, e) ==> e == entry || (Held(swept, e) && e.key != key)
  {
    var bare := Cleared(p, swept, key, now);
    ClearedHolds(p, swept, bare, key, now);
    TrimmedWasAppended(p, bare, entry, after);
  }

  lemma ClearedHolds<V(!new)>(p: Policy<V>, swept: Tiers<V>, bare: Tiers<V>, key: string, now: real)
    requires StoreSound(p, swept, now) && bare == Tiers(Remove(swept.ordinary, key), Remove(swept.guarded, key))
    ensures forall e :: Held(bare, e) <==> Held(swept, e) && e.key != key
  {
    RemoveKeepsTier(p, swept.ordinary, false, now, key);
    RemoveKeepsTier(p, swept.guarded, true, now, key);
  }

  lemma TrimmedWasAppended<V(!new)>(p: Policy<V>, bare: Tiers<V>, entry: Entry<V>, after: Tiers<V>)
    requires after == Trim(Append(p, bare, entry), p.Cap())
    ensures forall e :: Held(after, e) ==> e == entry || Held(bare, e)
  {
    var placed := Append(p, bare, entry);
    TrimCutsFronts(placed, p.Cap());
    forall e | Held(placed, e) && e != entry
      ensures Held(bare, e)
    {
    }
  }

  /** A snapshot of the keys after a sweep lists exactly the keys a read finds, each once. */
  lemma KeysAreTheLiveOnes<V(!new)>(p: Policy<V>, t: Tiers<V>, clock: real, now: real)
    requires StoreSound(p, t, clock) && clock <= now
    ensures var keys := KeysOf(Swept(t, now).ordinary) + KeysOf(Swept(t, now).guarded);
      && (forall key :: key in keys <==> Read(t, key, now).Some?)
      && forall i, j :: 0 <= i < j < |keys| ==> keys[i] != keys[j]
  {
    var swept := Swept(t, now);
    SweepKeepsStore(p, t, clock, now);
    SweptHolds(p, t, clock, now);
    var keys := KeysOf(swept.ordinary) + KeysOf(swept.guarded);
    forall key
      ensures key in keys <==> Read(t, key, now).Some?
    {
      ReadIsHeld(p, t, clock, key, now);
      if e :| Held(swept, e) && e.key == key {
        KeyIsListed(swept.ordinary, e);
        KeyIsListed(swept.guarded, e);
      }
      ListedIsHeld(swept.ordinary, key);
      ListedIsHeld(swept.guarded, key);
    }
  }

  lemma KeyIsListed<V(!new)>(entries: seq<Entry<V>>, e: Entry<V>)
    ensures e in entries ==> e.key in KeysOf(entries)
  {
    if e in entries {
      var i :| 0 <= i < |entries| && entries[i] == e;
      assert KeysOf(entries)[i] == e.key;
    }
  }

  lemma ListedIsHeld<V(!new)>(entries: seq<Entry<V>>, key: string)
    ensures key in KeysOf(entries) ==> exists e :: e in entries && e.key == key
  {
    if key in KeysOf(entries) {
      var i :| 0 <= i < |entries| && KeysOf(entries)[i] == key;
      assert entries[i] in entries;
    }
  }

  // ------------------------------------------------------------------ histories

  datatype Op<!V> =
    | Put(key: string, value: V, at: real)
    | Look(key: string, at: real)
    | Take(key: string, at: real)
    | Update(key: string, change: Option<V> -> V, at: real)
    | Measure(at: real)
  {
    predicate Writes() { Put? || Update? }
  }

  /** What a writing operation stores. */
  function Stored<V>(op: Op<V>, current: Option<V>): V
    requires op.Writes()
  {
    if op.Put? then op.value else op.change(current)
  }

  function Apply<V>(p: Policy<V>, t: Tiers<V>, op: Op<V>): Tiers<V> {
    match op
    case Put(_, _, _) => Written(p, t, op.key, op.value, op.at)
    case Update(_, _, _) => Written(p, t, op.key, Stored(op, Current(t, op.key, op.at)), op.at)
    case Take(_, _) => Popped(t, op.key, op.at)
    case Look(_, _) => Swept(t, op.at)
    case Measure(_) => Swept(t, op.at)
  }

  /** What the caller is shown: the value read, popped or updated. */
  function Shown<V>(t: Tiers<V>, op: Op<V>): Option<V> {
    match op
    case Put(_, value, _) => Some(value)
    case Update(_, _, _) => Some(Stored(op, Current(t, op.key, op.at)))
    case Take(_, _) => Current(t, op.key, op.at)
    case Look(_, _) => Read(t, op.key, op.at)
    case Measure(_) => None
  }

  function Run<V>(p: Policy<V>, ops: seq<Op<V>>): Tiers<V> {
    if ops == [] then Tiers([], [])
    else Apply(p, Run(p, ops[..|ops| - 1]), ops[|ops| - 1])
  }

  // ------------------------------------------------------------------ the simple map

  function PlainRead<V>(plain: map<string, Entry<V>>, key: string, now: real): Option<V> {
    if key in plain && now < plain[key].expiresAt then Some(plain[key].value) else None
  }

  function PlainApply<V>(ttl: real, plain: map<string, Entry<V>>, op: Op<V>): map<string, Entry<V>> {
    match op
    case Put(_, _, _) => plain[op.key := Entry(op.key, op.at + ttl, op.value)]
    case Update(_, _, _) =>
      plain[op.key := Entry(op.key, op.at + ttl, Stored(op, PlainRead(plain, op.key, op.at)))]
    case Take(_, _) => plain - {op.key}
    case Look(_, _) => plain
    case Measure(_) => plain
  }

  function PlainShown<V>(plain: map<string, Entry<V>>, op: Op<V>): Option<V> {
    match op
    case Put(_, value, _) => Some(value)
    case Update(_, _, _) => Some(Stored(op, PlainRead(plain, op.key, op.at)))
    case Take(_, _) => PlainRead(plain, op.key, op.at)
    case Look(_, _) => PlainRead(plain, op.key, op.at)
    case Measure(_) => None
  }

  function PlainRun<V>(ttl: real, ops: seq<Op<V>>): map<string, Entry<V>> {
    if ops == [] then map[]
    else PlainApply(ttl, PlainRun(ttl, ops[..|ops| - 1]), ops[|ops| - 1])
  }

  /** The clock of a history never goes back. */
  ghost predicate Monotone<V(!new)>(ops: seq<Op<V>>) {
    forall i, j :: 0 <= i < j < |ops| ==> ops[i].at <= ops[j].at
  }

  /** When the last operation of a history ran. */
  function ClockOf<V>(ops: seq<Op<V>>, start: real): real {
    if ops == [] then start else ops[|ops| - 1].at
  }

  lemma ApplyKeepsStore<V(!new)>(p: Policy<V>, t: Tiers<V>, clock: real, op: Op<V>)
    requires StoreSound(p, t, clock) && clock <= op.at
    ensures StoreSound(p, Apply(p, t, op), op.at)
  {
    match op
    case Put(_, _, _) => WriteKeepsStore(p, t, clock, op.key, op.value, op.at);
    case Update(_, _, _) => WriteKeepsStore(p, t, clock, op.key, Stored(op, Current(t, op.key, op.at)), op.at);
    case Take(_, _) => PopKeepsStore(p, t, clock, op.key, op.at);
    case _ => SweepKeepsStore(p, t, clock, op.at);
  }

  /** After any history: tiers disjoint, ordered and sorted by what `protect` says, and no more than the cap. */
  lemma {:induction false} EveryHistoryIsSound<V(!new)>(p: Policy<V>, ops: seq<Op<V>>, start: real)
    requires Monotone(ops) && (ops != [] ==> start <= ops[0].at)
    ensures StoreSound(p, Run(p, ops), ClockOf(ops, start))
    decreases |ops|
  {
    if ops != [] {
      var before := ops[..|ops| - 1];
      EveryHistoryIsSound(p, before, start);
      ApplyKeepsStore(p, Run(p, before), ClockOf(before, start), ops[|ops| - 1]);
    }
  }

  // ------------------------------------------------------------------ the store never invents

  /** Every live entry of the store is the plain map's entry of that key. */
  ghost predicate Refines<V(!new)>(t: Tiers<V>, plain: map<string, Entry<V>>, now: real) {
    forall e :: Held(t, e) && now < e.expiresAt ==> e.key in plain && plain[e.key] == e
  }

  /** And every live entry of the plain map is in the store. */
  ghost predicate Complete<V(!new)>(t: Tiers<V>, plain: map<string, Entry<V>>, now: real) {
    forall key :: key in plain && now < plain[key].expiresAt ==> plain[key].key == key && Held(t, plain[key])
  }

  lemma ReadRefines<V(!new)>(p: Policy<V>, t: Tiers<V>, plain: map<string, Entry<V>>, clock: real, key: string, now: real)
    requires StoreSound(p, t, clock) && clock <= now && Refines(t, plain, clock)
    ensures Read(t, key, now).Some? ==> Read(t, key, now) == PlainRead(plain, key, now)
    ensures Complete(t, plain, clock) ==> Read(t, key, now) == PlainRead(plain, key, now)
    ensures Current(t, key, now) == Read(t, key, now)
  {
    ReadIsHeld(p, t, clock, key, now);
    if Complete(t, plain, clock) && key in plain && now < plain[key].expiresAt {
      assert Held(t, plain[key]);
    }
  }

  lemma PoppedHolds<V(!new)>(p: Policy<V>, t: Tiers<V>, clock: real, key: string, now: real)
    requires StoreSound(p, t, clock) && clock <= now
    ensures forall e :: Held(Popped(t, key, now), e) <==> Held(t, e) && e.key != key && now < e.expiresAt
  {
    SweepKeepsStore(p, t, clock, now);
    SweptHolds(p, t, clock, now);
    var swept := Swept(t, now);
    var popped := Popped(t, key, now);
    RemoveKeepsTier(p, swept.ordinary, false, now, key);
    RemoveKeepsTier(p, swept.guarded, true, now, key);
    LookupMeansHas(swept.ordinary, key);
    forall e
      ensures Held(popped, e) ==> Held(swept, e) && e.key != key
    {
      if Lookup(swept.ordinary, key).Some? {
        var i :| 0 <= i < |swept.ordinary| && swept.ordinary[i].key == key;
        assert !Has(swept.guarded, swept.ordinary[i].key);
      }
    }
    forall e | Held(swept, e) && e.key != key
      ensures Held(popped, e)
    {
    }
  }

  lemma WriteRefines<V(!new)>(p: Policy<V>, t: Tiers<V>, plain: map<string, Entry<V>>, clock: real, key: string, value: V, now: real)
    requires StoreSound(p, t, clock) && clock <= now && Refines(t, plain, clock)
    ensures Refines(Written(p, t, key, value, now), plain[key := Entry(key, now + p.ttl, value)], now)
  {
    HeldWasPlaced(p, t, clock, key, value, now);
  }

  lemma PopRefines<V(!new)>(p: Policy<V>, t: Tiers<V>, plain: map<string, Entry<V>>, clock: real, key: string, now: real)
    requires StoreSound(p, t, clock) && clock <= now && Refines(t, plain, clock)
    ensures Refines(Popped(t, key, now), plain - {key}, now)
    ensures Complete(t, plain, clock) ==> Complete(Popped(t, key, now), plain - {key}, now)
  {
    PoppedHolds(p, t, clock, key, now);
  }

  lemma SweepRefines<V(!new)>(p: Policy<V>, t: Tiers<V>, plain: map<string, Entry<V>>, clock: real, now: real)
    requires StoreSound(p, t, clock) && clock <= now && Refines(t, plain, clock)
    ensures Refines(Swept(t, now), plain, now)
    ensures Complete(t, plain, clock) ==> Complete(Swept(t, now), plain, now)
  {
    SweptHolds(p, t, clock, now);
  }

  /** The last entry written under each key and not popped since. */
  function Recorded<V>(p: Policy<V>, ops: seq<Op<V>>): map<string, Entry<V>> {
    if ops == [] then map[]
    else
      var op := ops[|ops| - 1];
      var t, recorded := Run(p, ops[..|ops| - 1]), Recorded(p, ops[..|ops| - 1]);
      if op.Writes() then recorded[op.key := Entry(op.key, op.at + p.ttl, Shown(t, op).value)]
      else if op.Take? then recorded - {op.key}
      else recorded
  }

  lemma {:induction false} RunRefinesRecord<V(!new)>(p: Policy<V>, ops: seq<Op<V>>, start: real)
    requires Monotone(ops) && (ops != [] ==> start <= ops[0].at)
    ensures Refines(Run(p, ops), Recorded(p, ops), ClockOf(ops, start))
    decreases |ops|
  {
    if ops != [] {
      var before, op := ops[..|ops| - 1], ops[|ops| - 1];
      RunRefinesRecord(p, before, start);
      EveryHistoryIsSound(p, before, start);
      var t, recorded, clock := Run(p, before), Recorded(p, before), ClockOf(before, start);
      if op.Writes() {
        WriteRefines(p, t, recorded, clock, op.key, Shown(t, op).value, op.at);
      } else if op.Take? {
        PopRefines(p, t, recorded, clock, op.key, op.at);
      } else {
        SweepRefines(p, t, recorded, clock, op.at);
      }
    }
  }

  /** Whatever was evicted before, a read answers only the last value written, and only before it expires. */
  lemma {:induction false} OnlyTheLastWriteIsRead<V(!new)>(p: Policy<V>, ops: seq<Op<V>>, start: real, key: string, now: real)
    requires Monotone(ops) && (ops != [] ==> start <= ops[0].at) && ClockOf(ops, start) <= now
    ensures Read(Run(p, ops), key, now).Some? ==> Read(Run(p, ops), key, now) == PlainRead(Recorded(p, ops), key, now)
  {
    RunRefinesRecord(p, ops, start);
    EveryHistoryIsSound(p, ops, start);
    ReadRefines(p, Run(p, ops), Recorded(p, ops), ClockOf(ops, start), key, now);
  }

  // ------------------------------------------------------------------ until the first eviction

  /** The write lost nothing but what it replaced. */
  predicate Lossless<V>(p: Policy<V>, t: Tiers<V>, key: string, value: V, now: real) {
    var swept := Swept(t, now);
    |Remove(swept.ordinary, key)| + |Remove(swept.guarded, key)| + 1 <= Written(p, t, key, value, now).Size()
  }

  predicate Evicts<V>(p: Policy<V>, t: Tiers<V>, op: Op<V>) {
    op.Writes() && !Lossless(p, t, op.key, Shown(t, op).value, op.at)
  }

  lemma NoEvictionHoldsAll<V(!new)>(p: Policy<V>, t: Tiers<V>, clock: real, key: string, value: V, now: real)
    requires StoreSound(p, t, clock) && clock <= now
    requires Lossless(p, t, key, value, now)
    ensures Held(Written(p, t, key, value, now), Entry(key, now + p.ttl, value))
    ensures forall e :: Held(t, e) && now < e.expiresAt && e.key != key ==> Held(Written(p, t, key, value, now), e)
  {
    SweepKeepsStore(p, t, clock, now);
    SweptHolds(p, t, clock, now);
    var swept := Swept(t, now);
    var bare := Cleared(p, swept, key, now);
    ClearedHolds(p, swept, bare, key, now);
    LosslessIsAppend(p, bare, Entry(key, now + p.ttl, value));
  }

  lemma LosslessIsAppend<V(!new)>(p: Policy<V>, bare: Tiers<V>, entry: Entry<V>)
    requires bare.Size() + 1 <= Trim(Append(p, bare, entry), p.Cap()).Size()
    ensures Held(Trim(Append(p, bare, entry), p.Cap()), entry)
    ensures forall e :: Held(bare, e) ==> Held(Trim(Append(p, bare, entry), p.Cap()), e)
  {
    NothingTrimmed(p, bare, entry);
  }

  lemma NothingTrimmed<V(!new)>(p: Policy<V>, bare: Tiers<V>, entry: Entry<V>)
    requires bare.Size() + 1 <= Trim(Append(p, bare, entry), p.Cap()).Size()
    ensures Trim(Append(p, bare, entry), p.Cap()) == Append(p, bare, entry) && Append(p, bare, entry).Size() == bare.Size() + 1
  {
    TrimCutsFronts(Append(p, bare, entry), p.Cap());
  }

  lemma WriteCompletes<V(!new)>(p: Policy<V>, t: Tiers<V>, plain: map<string, Entry<V>>, clock: real, key: string, value: V, now: real)
    requires StoreSound(p, t, clock) && clock <= now && Complete(t, plain, clock)
    requires Lossless(p, t, key, value, now)
    ensures Complete(Written(p, t, key, value, now), plain[key := Entry(key, now + p.ttl, value)], now)
  {
    NoEvictionHoldsAll(p, t, clock, key, value, now);
  }

  ghost predicate NeverEvicts<V(!new)>(p: Policy<V>, ops: seq<Op<V>>) {
    forall i :: 0 <= i < |ops| ==> !Evicts(p, Run(p, ops[..i]), ops[i])
  }

  lemma PrefixNeverEvicts<V(!new)>(p: Policy<V>, ops: seq<Op<V>>)
    requires NeverEvicts(p, ops) && ops != []
    ensures NeverEvicts(p, ops[..|ops| - 1]) && !Evicts(p, Run(p, ops[..|ops| - 1]), ops[|ops| - 1])
  {
    var before := ops[..|ops| - 1];
    forall i | 0 <= i < |before|
      ensures !Evicts(p, Run(p, before[..i]), before[i])
    {
      assert before[..i] == ops[..i];
      assert !Evicts(p, Run(p, ops[..i]), ops[i]);
    }
    var last := |ops| - 1;
    assert !Evicts(p, Run(p, ops[..last]), ops[last]);
  }

  lemma {:induction false} RunIsThePlainMap<V(!new)>(p: Policy<V>, ops: seq<Op<V>>, start: real)
    requires Monotone(ops) && (ops != [] ==> start <= ops[0].at) && NeverEvicts(p, ops)
    ensures Refines(Run(p, ops), PlainRun(p.ttl, ops), ClockOf(ops, start))
    ensures Complete(Run(p, ops), PlainRun(p.ttl, ops), ClockOf(ops, start))
    decreases |ops|
  {
    if ops != [] {
      var before, op := ops[..|ops| - 1], ops[|ops| - 1];
      PrefixNeverEvicts(p, ops);
      RunIsThePlainMap(p, before, start);
      EveryHistoryIsSound(p, before, start);
      var t, plain, clock := Run(p, before), PlainRun(p.ttl, before), ClockOf(before, start);
      StepIsThePlainMap(p, t, plain, clock, op);
    }
  }

  lemma WriteBoth<V(!new)>(p: Policy<V>, t: Tiers<V>, plain: map<string, Entry<V>>, clock: real, key: string, value: V, now: real)
    requires StoreSound(p, t, clock) && clock <= now && Lossless(p, t, key, value, now)
    requires Refines(t, plain, clock) && Complete(t, plain, clock)
    ensures Refines(Written(p, t, key, value, now), plain[key := Entry(key, now + p.ttl, value)], now)
    ensures Complete(Written(p, t, key, value, now), plain[key := Entry(key, now + p.ttl, value)], now)
  {
    WriteRefines(p, t, plain, clock, key, value, now);
    WriteCompletes(p, t, plain, clock, key, value, now);
  }

  lemma WriteShows<V(!new)>(p: Policy<V>, t: Tiers<V>, plain: map<string, Entry<V>>, clock: real, op: Op<V>)
    requires StoreSound(p, t, clock) && clock <= op.at && op.Writes()
    requires Refines(t, plain, clock) && Complete(t, plain, clock)
    ensures Shown(t, op) == PlainShown(plain, op)
    ensures Apply(p, t, op) == Written(p, t, op.key, Shown(t, op).value, op.at)
    ensures PlainApply(p.ttl, plain, op) == plain[op.key := Entry(op.key, op.at + p.ttl, Shown(t, op).value)]
  {
    ReadRefines(p, t, plain, clock, op.key, op.at);
  }

  lemma WriteIsThePlainMap<V(!new)>(p: Policy<V>, t: Tiers<V>, plain: map<string, Entry<V>>, after: map<string, Entry<V>>, clock: real, op: Op<V>)
    requires StoreSound(p, t, clock) && clock <= op.at && op.Writes() && !Evicts(p, t, op)
    requires Refines(t, plain, clock) && Complete(t, plain, clock) && after == PlainApply(p.ttl, plain, op)
    ensures Refines(Apply(p, t, op), after, op.at) && Complete(Apply(p, t, op), after, op.at)
    ensures Shown(t, op) == PlainShown(plain, op)
  {
    WriteShows(p, t, plain, clock, op);
    WriteBoth(p, t, plain, clock, op.key, Shown(t, op).value, op.at);
  }

  lemma StepIsThePlainMap<V(!new)>(p: Policy<V>, t: Tiers<V>, plain: map<string, Entry<V>>, clock: real, op: Op<V>)
    requires StoreSound(p, t, clock) && clock <= op.at && !Evicts(p, t, op)
    requires Refines(t, plain, clock) && Complete(t, plain, clock)
    ensures Refines(Apply(p, t, op), PlainApply(p.ttl, plain, op), op.at)
    ensures Complete(Apply(p, t, op), PlainApply(p.ttl, plain, op), op.at)
    ensures Shown(t, op) == PlainShown(plain, op)
  {
    if op.Writes() {
      WriteIsThePlainMap(p, t, plain, PlainApply(p.ttl, plain, op), clock, op);
    } else if op.Take? {
      ReadRefines(p, t, plain, clock, op.key, op.at);
      PopRefines(p, t, plain, clock, op.key, op.at);
    } else {
      if op.Look? {
        ReadRefines(p, t, plain, clock, op.key, op.at);
      }
      SweepRefines(p, t, plain, clock, op.at);
    }
  }

  /** Until the first eviction every operation shows its caller what the unbounded map would have shown. */
  lemma {:induction false} IndistinguishableUntilAnEviction<V(!new)>(p: Policy<V>, ops: seq<Op<V>>, start: real, op: Op<V>)
    requires Monotone(ops) && (ops != [] ==> start <= ops[0].at) && NeverEvicts(p, ops) && ClockOf(ops, start) <= op.at
    ensures Shown(Run(p, ops), op) == PlainShown(PlainRun(p.ttl, ops), op)
  {
    RunIsThePlainMap(p, ops, start);
    EveryHistoryIsSound(p, ops, start);
    var t, plain, clock := Run(p, ops), PlainRun(p.ttl, ops), ClockOf(ops, start);
    if !op.Measure? {
      ReadRefines(p, t, plain, clock, op.key, op.at);
    }
  }

  // ------------------------------------------------------------------ cost

  function Placements<V>(ops: seq<Op<V>>): nat {
    if ops == [] then 0 else Placements(ops[..|ops| - 1]) + if ops[|ops| - 1].Writes() then 1 else 0
  }

  /** Entries all the sweeps of a history have looked at. */
  function Examined<V>(p: Policy<V>, ops: seq<Op<V>>): nat {
    if ops == [] then 0
    else Examined(p, ops[..|ops| - 1]) + SweepCost(Run(p, ops[..|ops| - 1]), ops[|ops| - 1].at)
  }

  lemma {:induction false} RemoveShrinks<V(!new)>(entries: seq<Entry<V>>, key: string)
    ensures |Remove(entries, key)| <= |entries|
  {
    if entries != [] {
      RemoveShrinks(entries[1..], key);
    }
  }

  lemma TrimShrinks<V(!new)>(t: Tiers<V>, cap: nat)
    ensures Trim(t, cap).Size() <= t.Size()
  {
    TrimCutsFronts(t, cap);
  }

  lemma WriteAddsOne<V(!new)>(p: Policy<V>, t: Tiers<V>, key: string, value: V, now: real)
    ensures Written(p, t, key, value, now).Size() <= Swept(t, now).Size() + 1
  {
    var swept := Swept(t, now);
    RemoveShrinks(swept.ordinary, key);
    RemoveShrinks(swept.guarded, key);
    TrimShrinks(Place(p, swept, key, value, now), p.Cap());
  }

  lemma PopAddsNothing<V(!new)>(t: Tiers<V>, key: string, now: real)
    ensures Popped(t, key, now).Size() <= Swept(t, now).Size()
  {
    RemoveShrinks(Swept(t, now).ordinary, key);
    RemoveShrinks(Swept(t, now).guarded, key);
  }

  /** What a sweep looks at it removes, but for one live entry per tier; a write adds at most one entry. */
  lemma OneOperationPays<V(!new)>(p: Policy<V>, t: Tiers<V>, op: Op<V>)
    ensures Apply(p, t, op).Size() + SweepCost(t, op.at) <= t.Size() + (if op.Writes() then 1 else 0) + 2
  {
    assert SweepCost(t, op.at) <= t.Size() - Swept(t, op.at).Size() + 2;
    if op.Writes() {
      WriteAddsOne(p, t, op.key, Stored(op, if op.Put? then None else Current(t, op.key, op.at)), op.at);
    } else if op.Take? {
      PopAddsNothing(t, op.key, op.at);
    }
  }

  lemma {:induction false} CostIsPaid<V(!new)>(p: Policy<V>, ops: seq<Op<V>>)
    ensures Examined(p, ops) + Run(p, ops).Size() <= Placements(ops) + 2 * |ops|
    decreases |ops|
  {
    if ops != [] {
      CostIsPaid(p, ops[..|ops| - 1]);
      OneOperationPays(p, Run(p, ops[..|ops| - 1]), ops[|ops| - 1]);
    }
  }

  /** Over any history all sweeps together look at no more entries than were placed, plus two per operation. */
  lemma ExpiryIsAmortised<V(!new)>(p: Policy<V>, ops: seq<Op<V>>)
    ensures Examined(p, ops) <= Placements(ops) + 2 * |ops| <= 3 * |ops|
  {
    CostIsPaid(p, ops);
    PlacementsAreOperations(ops);
  }

  lemma {:induction false} PlacementsAreOperations<V(!new)>(ops: seq<Op<V>>)
    ensures Placements(ops) <= |ops|
    decreases |ops|
  {
    if ops != [] {
      PlacementsAreOperations(ops[..|ops| - 1]);
    }
  }
}
