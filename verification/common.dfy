/** Small shared vocabulary: an optional value and the insertion-ordered map
    that the coordinator uses for its bounded histories. */
module Common {

  datatype Option<+T> = None | Some(value: T)

  function Lookup<K, V>(m: map<K, V>, k: K): (r: Option<V>)
    ensures r.Some? <==> k in m
    ensures r.Some? ==> r.value == m[k]
  {
    if k in m then Some(m[k]) else None
  }

  /** A handle on definitions that are better not unfolded everywhere: a predicate stated
      under `Open` only comes into play in proofs that mention `Open`. */
  predicate Open(z: int) {
    true
  }

  /** The elements of `s` other than `k`, in order. */
  function Without<K(==,!new)>(s: seq<K>, k: K): (r: seq<K>)
    ensures forall x :: x in r <==> x in s && x != k
    ensures |r| <= |s|
    ensures k !in s ==> r == s
  {
    if s == [] then []
    else if s[0] == k then Without(s[1..], k)
    else [s[0]] + Without(s[1..], k)
  }

  ghost predicate Distinct<K>(s: seq<K>) {
    forall i, j :: 0 <= i < j < |s| ==> s[i] != s[j]
  }

  lemma WithoutDistinct<K(!new)>(s: seq<K>, k: K)
    requires Distinct(s)
    ensures Distinct(Without(s, k))
  {
    if s != [] {
      WithoutDistinct(s[1..], k);
      assert s[0] !in s[1..];
    }
  }

  /** A map that remembers insertion order (Rust's `IndexMap`). */
  datatype IndexMap<K(==,!new), V> = IndexMap(keys: seq<K>, items: map<K, V>) {

    ghost predicate Valid() {
      && Distinct(keys)
      && forall k :: k in keys <==> k in items
    }

    /** Overwrites in place, or appends at the back. */
    function Put(k: K, v: V): IndexMap<K, V> {
      IndexMap(if k in items then keys else keys + [k], items[k := v])
    }

    /** `entry(k).or_insert(v)`. */
    function PutIfAbsent(k: K, v: V): IndexMap<K, V> {
      if k in items then this else Put(k, v)
    }

    /** Order-preserving removal (`shift_remove`). */
    function Remove(k: K): IndexMap<K, V> {
      IndexMap(Without(keys, k), items - {k})
    }

    /** Keep only the `cap` newest entries. */
    function DropOldest(cap: nat): IndexMap<K, V> {
      if |keys| <= cap then this
      else
        var n := |keys| - cap;
        IndexMap(keys[n..], map k | k in items && k !in keys[..n] :: items[k])
    }

    /** Drop the oldest entries outside `pinned` until at most `cap` remain or
        only pinned entries are left. */
    function DropOldestExcept(cap: nat, pinned: set<K>): IndexMap<K, V>
      decreases |keys|
    {
      var i := FirstOutside(keys, pinned);
      if |keys| <= cap || i == |keys| then this
      else
        WithoutShorter(keys, keys[i]);
        Remove(keys[i]).DropOldestExcept(cap, pinned)
    }

    lemma RemoveKeepsValid(k: K)
      requires Valid()
      ensures Remove(k).Valid()
    {
      WithoutDistinct(keys, k);
    }

    /** Dropping the oldest keeps values and order, and meets the cap. */
    lemma DropOldestKeeps(cap: nat)
      ensures Valid() ==> DropOldest(cap).Valid()
      ensures DropOldest(cap).items.Keys <= items.Keys && |DropOldest(cap).keys| <= cap
      ensures forall x :: x in DropOldest(cap).items ==> DropOldest(cap).items[x] == items[x]
    {
    }

    /** Pinned entries survive, values are kept, and the cap is met unless only pinned
        entries are left. */
    lemma DropOldestExceptKeeps(cap: nat, pinned: set<K>)
      ensures var r := DropOldestExcept(cap, pinned);
              && (Valid() ==> r.Valid()) && r.items.Keys <= items.Keys
              && (forall x :: x in items && x in pinned ==> x in r.items)
              && (forall x :: x in r.items ==> r.items[x] == items[x])
              && (|r.keys| <= cap || forall k :: k in r.keys ==> k in pinned)
      decreases |keys|
    {
      var i := FirstOutside(keys, pinned);
      if |keys| > cap && i != |keys| {
        WithoutShorter(keys, keys[i]);
        if Valid() {
          RemoveKeepsValid(keys[i]);
        }
        Remove(keys[i]).DropOldestExceptKeeps(cap, pinned);
      }
    }
  }

  /** Drops entries from the front until the cap is met. */
  method EvictOldest<K(==,!new), V>(m: IndexMap<K, V>, cap: nat) returns (r: IndexMap<K, V>)
    ensures r == m.DropOldest(cap)
  {
    r := m;
    ghost var n := 0;
    while |r.keys| > cap
      invariant n <= |m.keys| && r.keys == m.keys[n..] && (n == 0 || |r.keys| >= cap)
      invariant r.items == map k | k in m.items && k !in m.keys[..n] :: m.items[k]
    {
      assert m.keys[..n + 1] == m.keys[..n] + [r.keys[0]];
      r := IndexMap(r.keys[1..], r.items - {r.keys[0]});
      n := n + 1;
    }
    if n == 0 {
      assert r.items == m.items;
    } else {
      assert n == |m.keys| - cap;
    }
  }

  lemma WithoutShorter<K(!new)>(s: seq<K>, k: K)
    requires k in s
    ensures |Without(s, k)| < |s|
  {
    if s[0] != k {
      WithoutShorter(s[1..], k);
    }
  }

  /** Index of the first element that is not in `pinned`, or the length. */
  function FirstOutside<K(==,!new)>(s: seq<K>, pinned: set<K>): (i: nat)
    ensures i <= |s|
    ensures i < |s| ==> s[i] !in pinned
    ensures forall j :: 0 <= j < i ==> s[j] in pinned
  {
    if s == [] || s[0] !in pinned then 0 else 1 + FirstOutside(s[1..], pinned)
  }
}
