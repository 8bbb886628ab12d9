/** What the bounded store keeps in common with an unbounded expiring map, and what its bounds cost and save. */
module StoreLaws {
  import opened Prelude
  import opened ExpiringStores

  ghost predicate Sorted<V(!new)>(entries: seq<Entry<V>>) {
    forall i, j :: 0 <= i < j < |entries| ==> entries[i].expiresAt <= entries[j].expiresAt
  }

  ghost predicate DistinctKeys<V(!new)>(entries: seq<Entry<V>>) {
    forall i, j :: 0 <= i < j < |entries| ==> entries[i].key != entries[j].key
  }

  predicate Has<V>(entries: seq<Entry<V>>, key: string) {
    exists i :: 0 <= i < |entries| && entries[i].key == key
  }

  /** One tier in order, no entry promised more than a full life from `clock`, every value of kind `kind`. */
  ghost predicate TierSound<V(!new)>(p: Policy<V>, entries: seq<Entry<V>>, kind: bool, clock: real) {
    && Sorted(entries) && DistinctKeys(entries)
    && forall i :: 0 <= i < |entries| ==>
         entries[i].expiresAt <= clock + p.ttl && p.Protects(entries[i].value) == kind
  }

  /** The store as every operation leaves it, `clock` being the last instant it was used. */
  ghost predicate StoreSound<V(!new)>(p: Policy<V>, t: Tiers<V>, clock: real) {
    && TierSound(p, t.ordinary, false, clock) && TierSound(p, t.guarded, true, clock)
    && (forall i :: 0 <= i < |t.ordinary| ==> !Has(t.guarded, t.ordinary[i].key))
    && |t.guarded| <= p.Share() && t.Size() <= p.Cap()
  }

  // ------------------------------------------------------------------ dictionaries

  lemma {:induction false} LookupMeansHas<V(!new)>(entries: seq<Entry<V>>, key: string)
    ensures Lookup(entries, key).Some? <==> Has(entries, key)
    ensures Lookup(entries, key).Some? ==> Lookup(entries, key).value in entries && Lookup(entries, key).value.key == key
  {
    if entries != [] {
      LookupMeansHas(entries[1..], key);
      if Has(entries[1..], key) {
        var i :| 0 <= i < |entries[1..]| && entries[1..][i].key == key;
        assert entries[i + 1].key == key;
      }
      if Has(entries, key) && entries[0].key != key {
        var i :| 0 <= i < |entries| && entries[i].key == key;
        assert entries[1..][i - 1].key == key;
      }
    }
  }

  lemma {:induction false} LookupIsThatEntry<V(!new)>(entries: seq<Entry<V>>, i: nat)
    requires DistinctKeys(entries) && i < |entries|
    ensures Lookup(entries, entries[i].key) == Some(entries[i])
  {
    if i > 0 {
      assert entries[1..][i - 1] == entries[i];
      LookupIsThatEntry(entries[1..], i - 1);
    }
  }

  /** Removing a key cuts out the one place where it stands, or nothing. */
  lemma {:induction false} RemoveCutsOne<V(!new)>(entries: seq<Entry<V>>, key: string) returns (at: nat)
    requires DistinctKeys(entries)
    ensures at <= |entries| && (at < |entries| <==> Has(entries, key))
    ensures at < |entries| ==> entries[at].key == key && Remove(entries, key) == entries[..at] + entries[at + 1..]
    ensures at == |entries| ==> Remove(entries, key) == entries
    ensures !Has(Remove(entries, key), key)
  {
    if entries == [] {
      at := 0;
    } else if entries[0].key == key {
      at := 0;
    } else {
      var tail := entries[1..];
      DistinctInTail(entries);
      var rest := RemoveCutsOne(tail, key);
      at := rest + 1;
      HasInTail(entries, key);
      NotAtTheFront(entries[0], Remove(tail, key), key);
      CutOneFurther(entries, rest);
    }
  }

  lemma DistinctInTail<V(!new)>(entries: seq<Entry<V>>)
    requires entries != [] && DistinctKeys(entries)
    ensures DistinctKeys(entries[1..])
  {
    assert forall i :: 0 <= i < |entries| - 1 ==> entries[1..][i] == entries[i + 1];
  }

  lemma NotAtTheFront<V(!new)>(first: Entry<V>, left: seq<Entry<V>>, key: string)
    requires first.key != key && !Has(left, key)
    ensures !Has([first] + left, key)
  {
    assert ([first] + left)[1..] == left;
    HasInTail([first] + left, key);
  }

  lemma CutOneFurther<V(!new)>(entries: seq<Entry<V>>, at: nat)
    requires entries != [] && at < |entries|
    ensures var tail := entries[1..];
      at < |tail| ==> [entries[0]] + (tail[..at] + tail[at + 1..]) == entries[..at + 1] + entries[at + 2..]
    ensures [entries[0]] + entries[1..] == entries
  {
  }

  lemma HasInTail<V(!new)>(entries: seq<Entry<V>>, key: string)
    requires entries != [] && entries[0].key != key
    ensures Has(entries, key) <==> Has(entries[1..], key)
  {
  }

  /** Every entry of `part` is one of `whole`. */
  ghost predicate SubTier<V(!new)>(part: seq<Entry<V>>, whole: seq<Entry<V>>) {
    |part| <= |whole| && forall i :: 0 <= i < |part| ==> part[i] in whole
  }

  function Skip(i: int, at: int): int {
    if i < at then i else i + 1
  }

  /** `left` is `entries` without the entry at `at`. */
  ghost predicate Cut<V(!new)>(entries: seq<Entry<V>>, left: seq<Entry<V>>, at: nat) {
    && at < |entries| && |left| == |entries| - 1
    && forall i :: 0 <= i < |left| ==> left[i] == entries[Skip(i, at)]
  }

  lemma CutKeepsTier<V(!new)>(p: Policy<V>, entries: seq<Entry<V>>, left: seq<Entry<V>>, at: nat, kind: bool, clock: real)
    requires Cut(entries, left, at) && TierSound(p, entries, kind, clock)
    ensures TierSound(p, left, kind, clock)
  {
  }

  lemma CutKeepsOthers<V(!new)>(entries: seq<Entry<V>>, left: seq<Entry<V>>, at: nat)
    requires Cut(entries, left, at)
    ensures SubTier(left, entries)
    ensures forall i :: 0 <= i < |entries| && i != at ==> entries[i] in left
  {
    forall i | 0 <= i < |left|
      ensures left[i] in entries
    {
      assert left[i] == entries[Skip(i, at)];
    }
    forall i | 0 <= i < |entries| && i != at
      ensures entries[i] in left
    {
      var k := if i < at then i else i - 1;
      assert left[k] == entries[Skip(k, at)];
    }
  }

  lemma RemoveKeepsTier<V(!new)>(p: Policy<V>, entries: seq<Entry<V>>, kind: bool, clock: real, key: string)
    requires TierSound(p, entries, kind, clock)
    ensures TierSound(p, Remove(entries, key), kind, clock)
    ensures SubTier(Remove(entries, key), entries) && !Has(Remove(entries, key), key)
    ensures forall e :: e in entries && e.key != key ==> e in Remove(entries, key)
  {
    var at := RemoveCutsOne(entries, key);
    if at < |entries| {
      assert Cut(entries, Remove(entries, key), at);
      CutKeepsTier(p, entries, Remove(entries, key), at, kind, clock);
      CutKeepsOthers(entries, Remove(entries, key), at);
    }
  }

  lemma SuffixKeepsTier<V(!new)>(p: Policy<V>, entries: seq<Entry<V>>, kind: bool, clock: real, k: nat)
    requires TierSound(p, entries, kind, clock) && k <= |entries|
    ensures TierSound(p, entries[k..], kind, clock) && SubTier(entries[k..], entries)
  {
  }

  lemma AppendKeepsTier<V(!new)>(p: Policy<V>, entries: seq<Entry<V>>, kind: bool, clock: real, entry: Entry<V>, now: real)
    requires TierSound(p, entries, kind, clock) && clock <= now && !Has(entries, entry.key)
    requires entry.expiresAt == now + p.ttl && p.Protects(entry.value) == kind
    ensures TierSound(p, entries + [entry], kind, now)
  {
  }

  // ------------------------------------------------------------------ every operation keeps the store sound

  /** The sweep stops at the first live entry. */
  lemma {:induction false} SweepCutsTheFront<V(!new)>(entries: seq<Entry<V>>, now: real) returns (k: nat)
    ensures k <= |entries| && LiveTail(entries, now) == entries[k..]
    ensures forall i :: 0 <= i < k ==> entries[i].expiresAt <= now
    ensures k < |entries| ==> now < entries[k].expiresAt
  {
    if entries != [] && entries[0].expiresAt <= now {
      var rest := SweepCutsTheFront(entries[1..], now);
      k := rest + 1;
      forall i | 0 <= i < k
        ensures entries[i].expiresAt <= now
      {
        assert i > 0 ==> entries[i] == entries[1..][i - 1];
      }
    } else {
      k := 0;
    }
  }

  /** In an ordered tier what a sweep removes is exactly what has expired. */
  lemma {:induction false} SweepIsExact<V(!new)>(p: Policy<V>, entries: seq<Entry<V>>, kind: bool, clock: real, now: real)
    requires TierSound(p, entries, kind, clock)
    ensures forall e :: e in LiveTail(entries, now) <==> e in entries && now < e.expiresAt
    ensures TierSound(p, LiveTail(entries, now), kind, clock) && SubTier(LiveTail(entries, now), entries)
  {
    var k := SweepCutsTheFront(entries, now);
    SuffixKeepsTier(p, entries, kind, clock, k);
    forall i | k <= i < |entries|
      ensures now < entries[i].expiresAt && entries[i] in entries[k..]
    {
      assert entries[i] == entries[k..][i - k];
      assert entries[k].expiresAt <= entries[i].expiresAt;
    }
  }

  lemma SweepKeepsStore<V(!new)>(p: Policy<V>, t: Tiers<V>, clock: real, now: real)
    requires StoreSound(p, t, clock) && clock <= now
    ensures StoreSound(p, Swept(t, now), now)
  {
    SweepIsExact(p, t.ordinary, false, clock, now);
    SweepIsExact(p, t.guarded, true, clock, now);
    var swept := Swept(t, now);
    StaysApart(t, swept);
  }

  /** Tiers that share no key still share none when both lose entries. */
  lemma StaysApart<V(!new)>(t: Tiers<V>, less: Tiers<V>)
    requires forall i :: 0 <= i < |t.ordinary| ==> !Has(t.guarded, t.ordinary[i].key)
    requires SubTier(less.ordinary, t.ordinary) && SubTier(less.guarded, t.guarded)
    ensures forall i :: 0 <= i < |less.ordinary| ==> !Has(less.guarded, less.ordinary[i].key)
  {
  }

  /** Sound but for the cap, which the new entry may exceed by one. */
  ghost predicate PlacedSound<V(!new)>(p: Policy<V>, t: Tiers<V>, clock: real) {
    && TierSound(p, t.ordinary, false, clock) && TierSound(p, t.guarded, true, clock)
    && (forall i :: 0 <= i < |t.ordinary| ==> !Has(t.guarded, t.ordinary[i].key))
    && |t.guarded| <= p.Share()
  }

  lemma PlaceKeepsStore<V(!new)>(p: Policy<V>, t: Tiers<V>, key: string, value: V, now: real)
    requires PlacedSound(p, t, now)
    ensures PlacedSound(p, Place(p, t, key, value, now), now)
  {
    var placed := Place(p, t, key, value, now);
    assert PlacedSound(p, placed, now) by {
      var bare := Cleared(p, t, key, now);
      var entry := Entry(key, now + p.ttl, value);
      AppendKeepsStore(p, bare, entry, now);
      assert placed == Append(p, bare, entry);
    }
  }

  lemma Cleared<V(!new)>(p: Policy<V>, t: Tiers<V>, key: string, now: real) returns (bare: Tiers<V>)
    requires PlacedSound(p, t, now)
    ensures bare == Tiers(Remove(t.ordinary, key), Remove(t.guarded, key)) && PlacedSound(p, bare, now)
    ensures !Has(bare.ordinary, key) && !Has(bare.guarded, key)
  {
    bare := Tiers(Remove(t.ordinary, key), Remove(t.guarded, key));
    RemoveKeepsTier(p, t.ordinary, false, now, key);
    RemoveKeepsTier(p, t.guarded, true, now, key);
    StaysApart(t, bare);
  }

  lemma AppendKeepsStore<V(!new)>(p: Policy<V>, t: Tiers<V>, entry: Entry<V>, now: real)
    requires PlacedSound(p, t, now) && entry.expiresAt == now + p.ttl
    requires !Has(t.ordinary, entry.key) && !Has(t.guarded, entry.key)
    ensures PlacedSound(p, Append(p, t, entry), now)
  {
    if p.Protects(entry.value) {
      var drop := if p.Share() <= |t.guarded| then 1 else 0;
      var kept := t.guarded[drop..];
      SuffixKeepsTier(p, t.guarded, true, now, drop);
      AppendKeepsTier(p, kept, true, now, entry, now);
      StaysApart(t, t.(guarded := kept));
      assert Append(p, t, entry).guarded == kept + [entry];
    } else {
      AppendKeepsTier(p, t.ordinary, false, now, entry, now);
    }
  }

  /** Entries beyond the cap. */
  function Excess<V>(t: Tiers<V>, cap: nat): nat {
    if t.Size() <= cap then 0 else t.Size() - cap
  }

  /** How many of them the ordinary tier gives up. */
  function FirstCut<V>(t: Tiers<V>, cap: nat): (k: nat)
    ensures k <= |t.ordinary| && k <= Excess(t, cap) && Excess(t, cap) - k <= |t.guarded|
  {
    if Excess(t, cap) <= |t.ordinary| then Excess(t, cap) else |t.ordinary|
  }

  /** Trimming cuts the front of the ordinary tier, and the protected one only below its own size. */
  lemma {:induction false} TrimCutsFronts<V(!new)>(t: Tiers<V>, cap: nat)
    ensures Trim(t, cap).ordinary == t.ordinary[FirstCut(t, cap)..]
    ensures Trim(t, cap).guarded == t.guarded[Excess(t, cap) - FirstCut(t, cap)..]
    decreases t.Size(), 1
  {
    if cap < t.Size() {
      if t.ordinary != [] {
        TrimOneMore(t.ordinary, t.guarded, cap);
      } else {
        var less := t.(guarded := t.guarded[1..]);
        TrimCutsFronts(less, cap);
        assert less.guarded[Excess(less, cap)..] == t.guarded[Excess(t, cap)..];
      }
    }
  }

  lemma TrimOneMore<V(!new)>(ordinary: seq<Entry<V>>, guarded: seq<Entry<V>>, cap: nat)
    requires ordinary != [] && cap < |ordinary| + |guarded|
    ensures var t := Tiers(ordinary, guarded);
      && Trim(t, cap).ordinary == ordinary[FirstCut(t, cap)..]
      && Trim(t, cap).guarded == guarded[Excess(t, cap) - FirstCut(t, cap)..]
    decreases |ordinary| + |guarded|, 0
  {
    var t, less := Tiers(ordinary, guarded), Tiers(ordinary[1..], guarded);
    TrimCutsFronts(less, cap);
    var k := FirstCut(less, cap);
    assert FirstCut(t, cap) == k + 1 && Excess(t, cap) == Excess(less, cap) + 1;
    assert ordinary[1..][k..] == ordinary[k + 1..];
  }

  lemma TrimKeepsStore<V(!new)>(p: Policy<V>, t: Tiers<V>, clock: real)
    requires PlacedSound(p, t, clock)
    ensures StoreSound(p, Trim(t, p.Cap()), clock)
    ensures Trim(t, p.Cap()).guarded == t.guarded
  {
    TrimCutsFronts(t, p.Cap());
    var trimmed := Trim(t, p.Cap());
    SuffixKeepsTier(p, t.ordinary, false, clock, |t.ordinary| - |trimmed.ordinary|);
    assert trimmed.guarded == t.guarded;
    StaysApart(t, trimmed);
  }

  lemma WriteKeepsStore<V(!new)>(p: Policy<V>, t: Tiers<V>, clock: real, key: string, value: V, now: real)
    requires StoreSound(p, t, clock) && clock <= now
    ensures StoreSound(p, Written(p, t, key, value, now), now)
  {
    SweepKeepsStore(p, t, clock, now);
    PlaceKeepsStore(p, Swept(t, now), key, value, now);
    TrimKeepsStore(p, Place(p, Swept(t, now), key, value, now), now);
  }

  lemma PopKeepsStore<V(!new)>(p: Policy<V>, t: Tiers<V>, clock: real, key: string, now: real)
    requires StoreSound(p, t, clock) && clock <= now
    ensures StoreSound(p, Popped(t, key, now), now)
  {
    SweepKeepsStore(p, t, clock, now);
    var swept := Swept(t, now);
    RemoveKeepsTier(p, swept.ordinary, false, now, key);
    RemoveKeepsTier(p, swept.guarded, true, now, key);
    StaysApart(swept, Popped(t, key, now));
  }

  /** Trimming gives up a protected entry exactly when the protected tier alone exceeds the cap:
      never at a fixed cap, only when the cap itself shrank. */
  lemma TrimSacrificesIff<V(!new)>(t: Tiers<V>, cap: nat)
    ensures Trim(t, cap).guarded != t.guarded <==> cap < |t.guarded|
  {
    TrimCutsFronts(t, cap);
  }
}
