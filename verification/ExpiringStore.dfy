/** The bounded, expiring, two-tier mapping of http_auth.py. Clocks are real seconds. */
module ExpiringStores {
  import opened Prelude

  datatype Entry<+V> = Entry(key: string, expiresAt: real, value: V)

  /** Two ordered dictionaries, oldest expiry first: `_entries` and `_protected`. */
  datatype Tiers<+V> = Tiers(ordinary: seq<Entry<V>>, guarded: seq<Entry<V>>) {
    function Size(): nat { |ordinary| + |guarded| }
  }

  /** The settings of one store. A store built without `protect` protects nothing. */
  datatype Policy<!V> = Policy(maxEntries: int, ttl: real, protect: Option<V -> bool>) {
    predicate Protects(value: V) {
      protect.Some? && protect.value(value)
    }

    function Cap(): (c: nat)
      ensures 1 <= c
    {
      Max(1, maxEntries)
    }

    /** How much of the cap protected entries may hold. */
    function Share(): (s: nat)
      ensures 1 <= s <= Cap() && (2 <= Cap() ==> s < Cap())
    {
      Max(1, Cap() / 2)
    }
  }

  // ------------------------------------------------------------------ ordered dictionaries

  function Lookup<V>(entries: seq<Entry<V>>, key: string): Option<Entry<V>> {
    if entries == [] then None
    else if entries[0].key == key then Some(entries[0])
    else Lookup(entries[1..], key)
  }

  function Remove<V>(entries: seq<Entry<V>>, key: string): seq<Entry<V>> {
    if entries == [] then []
    else if entries[0].key == key then entries[1..]
    else [entries[0]] + Remove(entries[1..], key)
  }

  // ------------------------------------------------------------------ what each operation leaves

  /** The tier without its expired front. */
  function LiveTail<V>(entries: seq<Entry<V>>, now: real): (live: seq<Entry<V>>)
    ensures |live| <= |entries|
  {
    if entries != [] && entries[0].expiresAt <= now then LiveTail(entries[1..], now) else entries
  }

  /** Entries a sweep of the tier looks at: those it drops and the first live one. */
  function Looked<V>(entries: seq<Entry<V>>, now: real): nat {
    |entries| - |LiveTail(entries, now)| + if LiveTail(entries, now) == [] then 0 else 1
  }

  function Swept<V>(t: Tiers<V>, now: real): Tiers<V> {
    Tiers(LiveTail(t.ordinary, now), LiveTail(t.guarded, now))
  }

  function SweepCost<V>(t: Tiers<V>, now: real): nat {
    Looked(t.ordinary, now) + Looked(t.guarded, now)
  }

  function Find<V>(t: Tiers<V>, key: string): Option<Entry<V>> {
    var found := Lookup(t.ordinary, key);
    if found.None? then Lookup(t.guarded, key) else found
  }

  /** The entry at the back of the tier its value belongs to; a full protected share makes room first. */
  function Append<V>(p: Policy<V>, t: Tiers<V>, entry: Entry<V>): Tiers<V> {
    if p.Protects(entry.value) then
      t.(guarded := (if p.Share() <= |t.guarded| then t.guarded[1..] else t.guarded) + [entry])
    else t.(ordinary := t.ordinary + [entry])
  }

  function Place<V>(p: Policy<V>, t: Tiers<V>, key: string, value: V, now: real): Tiers<V> {
    Append(p, Tiers(Remove(t.ordinary, key), Remove(t.guarded, key)), Entry(key, now + p.ttl, value))
  }

  /** Ordinary entries go first; a protected one only when none are left. */
  function Trim<V>(t: Tiers<V>, cap: nat): Tiers<V>
    decreases t.Size()
  {
    if t.Size() <= cap then t
    else if t.ordinary != [] then Trim(t.(ordinary := t.ordinary[1..]), cap)
    else Trim(t.(guarded := t.guarded[1..]), cap)
  }

  function Written<V>(p: Policy<V>, t: Tiers<V>, key: string, value: V, now: real): Tiers<V> {
    Trim(Place(p, Swept(t, now), key, value, now), p.Cap())
  }

  function Read<V>(t: Tiers<V>, key: string, now: real): Option<V> {
    var found := Find(Swept(t, now), key);
    if found.None? || found.value.expiresAt <= now then None else Some(found.value.value)
  }

  /** What a read-modify-write is shown: whatever the sweep left under the key. */
  function Current<V>(t: Tiers<V>, key: string, now: real): Option<V> {
    var found := Find(Swept(t, now), key);
    if found.None? then None else Some(found.value.value)
  }

  function Popped<V>(t: Tiers<V>, key: string, now: real): Tiers<V> {
    var swept := Swept(t, now);
    if Lookup(swept.ordinary, key).Some? then swept.(ordinary := Remove(swept.ordinary, key))
    else swept.(guarded := Remove(swept.guarded, key))
  }

  function KeysOf<V>(entries: seq<Entry<V>>): seq<string> {
    seq(|entries|, i requires 0 <= i < |entries| => entries[i].key)
  }

  // ------------------------------------------------------------------ the store

  class ExpiringStore<V> {
    const policy: Policy<V>
    var entries: seq<Entry<V>>
    var protected: seq<Entry<V>>
    var examined: nat

    constructor (policy: Policy<V>)
      ensures this.policy == policy && Contents() == Tiers([], []) && examined == 0
    {
      this.policy := policy;
      entries, protected, examined := [], [], 0;
    }

    ghost function Contents(): Tiers<V>
      reads this
    {
      Tiers(entries, protected)
    }

    /** One tier, its new contents and the number of entries looked at. */
    method SweepTier(tier: seq<Entry<V>>, now: real) returns (left: seq<Entry<V>>)
      modifies this`examined
      ensures left == LiveTail(tier, now)
      ensures examined == old(examined) + Looked(tier, now)
    {
      left := tier;
      while left != []
        invariant LiveTail(left, now) == LiveTail(tier, now)
        invariant |left| <= |tier| && examined == old(examined) + |tier| - |left|
        decreases |left|
      {
        examined := examined + 1;
        if now < left[0].expiresAt {
          return;
        }
        left := left[1..];
      }
    }

    method Sweep(now: real)
      modifies this
      ensures Contents() == Swept(old(Contents()), now)
      ensures examined == old(examined) + SweepCost(old(Contents()), now)
    {
      entries := SweepTier(entries, now);
      protected := SweepTier(protected, now);
    }

    method EnforceCap()
      modifies this`entries, this`protected
      ensures Contents() == Trim(old(Contents()), policy.Cap())
    {
      var cap := policy.Cap();
      while |entries| + |protected| > cap
        invariant Trim(Contents(), cap) == Trim(old(Contents()), cap)
        decreases |entries| + |protected|
      {
        if entries != [] {
          entries := entries[1..];
        } else {
          protected := protected[1..];
        }
      }
    }

    method PlaceEntry(key: string, value: V, now: real)
      modifies this`entries, this`protected
      ensures Contents() == Place(policy, old(Contents()), key, value, now)
    {
      entries := Remove(entries, key);
      protected := Remove(protected, key);
      var wantsProtection := policy.Protects(value);
      if wantsProtection && |protected| >= policy.Share() {
        protected := protected[1..];
      }
      var entry := Entry(key, now + policy.ttl, value);
      if wantsProtection {
        protected := protected + [entry];
      } else {
        entries := entries + [entry];
      }
    }

    method Set(key: string, value: V, now: real)
      modifies this
      ensures Contents() == Written(policy, old(Contents()), key, value, now)
      ensures examined == old(examined) + SweepCost(old(Contents()), now)
    {
      Sweep(now);
      PlaceEntry(key, value, now);
      EnforceCap();
    }

    method Get(key: string, now: real) returns (value: Option<V>)
      modifies this
      ensures value == Read(old(Contents()), key, now)
      ensures Contents() == Swept(old(Contents()), now)
      ensures examined == old(examined) + SweepCost(old(Contents()), now)
    {
      Sweep(now);
      var found := Lookup(entries, key);
      if found.None? {
        found := Lookup(protected, key);
      }
      if found.None? || found.value.expiresAt <= now {
        return None;
      }
      return Some(found.value.value);
    }

    method Pop(key: string, now: real) returns (value: Option<V>)
      modifies this
      ensures value == Current(old(Contents()), key, now)
      ensures Contents() == Popped(old(Contents()), key, now)
      ensures examined == old(examined) + SweepCost(old(Contents()), now)
    {
      Sweep(now);
      var found := Lookup(entries, key);
      if found.Some? {
        entries := Remove(entries, key);
      } else {
        found := Lookup(protected, key);
        protected := Remove(protected, key);
      }
      value := if found.None? then None else Some(found.value.value);
    }

    method Mutate(key: string, change: Option<V> -> V, now: real) returns (updated: V)
      modifies this
      ensures updated == change(Current(old(Contents()), key, now))
      ensures Contents() == Written(policy, old(Contents()), key, updated, now)
      ensures examined == old(examined) + SweepCost(old(Contents()), now)
    {
      Sweep(now);
      var found := Lookup(entries, key);
      if found.None? {
        found := Lookup(protected, key);
      }
      updated := change(if found.None? then None else Some(found.value.value));
      PlaceEntry(key, updated, now);
      EnforceCap();
    }

    method Keys(now: real) returns (keys: seq<string>)
      modifies this
      ensures Contents() == Swept(old(Contents()), now)
      ensures keys == KeysOf(Contents().ordinary) + KeysOf(Contents().guarded)
      ensures examined == old(examined) + SweepCost(old(Contents()), now)
    {
      Sweep(now);
      keys := KeysOf(entries) + KeysOf(protected);
    }

    method SizeAt(now: real) returns (size: nat)
      modifies this
      ensures Contents() == Swept(old(Contents()), now) && size == Contents().Size()
      ensures examined == old(examined) + SweepCost(old(Contents()), now)
    {
      Sweep(now);
      size := |entries| + |protected|;
    }

    method Clear()
      modifies this`entries, this`protected
      ensures Contents() == Tiers([], [])
    {
      entries, protected := [], [];
    }
  }
}
