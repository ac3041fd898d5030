/**
  frozen::unordered_set: an immutable set of N pairwise-distinct keys, a fixed
  capacity, a seed chosen at construction and a bucket table.

  Keys are stored in the order they were given; the table maps each bucket to the
  indices of the keys that hash there, so a position is an index into the key
  sequence: begin() is 0 and end() is size(). The hash is not fixed by this model:
  every set carries a hasher, a function of (seed, key), and a key's bucket is
  hasher(seed, key) mod capacity.
*/
module UnorderedSet {

  /** The most keys one bucket may hold; a lookup scans at most this many. */
  const PROBE_WIDTH: nat := 4

  /** No key occurs twice. */
  predicate Distinct<K(==)>(keys: seq<K>)
  {
    forall i, j :: 0 <= i < j < |keys| ==> keys[i] != keys[j]
  }

  /** The keys of a sequence, as a set. */
  function KeySet<K>(keys: seq<K>): (ks: set<K>)
    ensures forall i :: 0 <= i < |keys| ==> keys[i] in ks
  {
    set i | 0 <= i < |keys| :: keys[i]
  }

  /** Bucket of key k under the given seed. */
  function BucketIndex<K>(hasher: (nat, K) -> nat, seed: nat, capacity: nat, k: K): (b: nat)
    requires 0 < capacity
    ensures b < capacity
  {
    hasher(seed, k) % capacity
  }

  /** Indices, in increasing order, of the keys that fall in bucket b. */
  function BucketMembers<K>(keys: seq<K>, hasher: (nat, K) -> nat, seed: nat, capacity: nat, b: nat): (members: seq<nat>)
    requires |keys| <= capacity
    decreases |keys|
  {
    if keys == [] then []
    else
      var last := |keys| - 1;
      BucketMembers(keys[..last], hasher, seed, capacity, b)
      + (if BucketIndex(hasher, seed, capacity, keys[last]) == b then [last] else [])
  }

  /** A key index is in bucket b exactly when its key hashes to b; a bucket holds no more indices than there are keys. */
  lemma {:induction false} BucketMembersSpec<K>(keys: seq<K>, hasher: (nat, K) -> nat, seed: nat, capacity: nat, b: nat)
    requires |keys| <= capacity
    ensures forall j: nat :: j in BucketMembers(keys, hasher, seed, capacity, b)
              <==> j < |keys| && BucketIndex(hasher, seed, capacity, keys[j]) == b
    ensures |BucketMembers(keys, hasher, seed, capacity, b)| <= |keys|
    decreases |keys|
  {
    if keys != [] {
      var last := |keys| - 1;
      BucketMembersSpec(keys[..last], hasher, seed, capacity, b);
    }
  }

  /** The bucket table a seed produces: bucket b lists the keys that hash to b, in input order. */
  function PlannedTable<K>(keys: seq<K>, hasher: (nat, K) -> nat, seed: nat, capacity: nat): (table: seq<seq<nat>>)
    requires |keys| <= capacity
  {
    seq(capacity, b requires 0 <= b < capacity => BucketMembers(keys, hasher, seed, capacity, b))
  }

  /** No bucket holds more than PROBE_WIDTH keys. */
  predicate WithinProbeWidth(table: seq<seq<nat>>)
  {
    forall b :: 0 <= b < |table| ==> |table[b]| <= PROBE_WIDTH
  }

  /** A seed is acceptable when the table it produces keeps every bucket within the probe width. */
  predicate Acceptable<K>(keys: seq<K>, hasher: (nat, K) -> nat, seed: nat, capacity: nat)
    requires |keys| <= capacity
  {
    WithinProbeWidth(PlannedTable(keys, hasher, seed, capacity))
  }

  /** Linear disambiguation inside one bucket: the first listed index whose key equals k, or |keys| (end). */
  function ScanBucket<K(==)>(keys: seq<K>, occupants: seq<nat>, k: K): (r: nat)
    requires forall j :: j in occupants ==> j < |keys|
    ensures r <= |keys|
    ensures r < |keys| ==> r in occupants && keys[r] == k
    ensures r == |keys| ==> forall j :: j in occupants ==> keys[j] != k
    decreases |occupants|
  {
    if occupants == [] then |keys|
    else
      assert occupants[0] in occupants;
      if keys[occupants[0]] == k then occupants[0]
      else
        assert forall j :: j in occupants[1..] ==> j in occupants;
        ScanBucket(keys, occupants[1..], k)
  }

  datatype FrozenSet<!K(==)> = FrozenSet(
    keys: seq<K>,
    capacity: nat,
    seed: nat,
    table: seq<seq<nat>>,
    hasher: (nat, K) -> nat)
  {
    /** One bucket per slot of capacity, and every occupant names a stored key. */
    predicate Shaped()
    {
      && |table| == capacity
      && forall b, j :: 0 <= b < |table| && j in table[b] ==> j < |keys|
    }

    /** What construction guarantees: distinct keys and the table its seed produces, within the probe width. */
    ghost predicate Valid()
    {
      && Shaped()
      && Distinct(keys)
      && |keys| <= capacity
      && table == PlannedTable(keys, hasher, seed, capacity)
      && WithinProbeWidth(table)
    }

    /** end() and cend(): one past the last stored key; the positions before it hold exactly the stored keys. */
    function End(): (i: nat)
      ensures i <= |keys| && keys[..i] == keys
    {
      |keys|
    }

    /** begin() and cbegin(): the position of the first stored key; the positions from it on hold exactly the stored keys. */
    function Begin(): (i: nat)
      ensures i <= End() && keys[i..] == keys
    {
      0
    }

    /** size(): the number of positions from begin() to end(), which for distinct keys is the number of members. */
    function Size(): (n: nat)
      ensures n == End() - Begin()
      ensures Distinct(keys) ==> n == |KeySet(keys)|
    {
      if Distinct(keys) then DistinctKeySetSize(keys); |keys| else |keys|
    }

    /** max_size(): the capacity fixed at construction, one bucket per slot, and never below size() once constructed. */
    function MaxSize(): (n: nat)
      ensures Shaped() ==> n == |table|
      ensures Valid() ==> Size() <= n
    {
      capacity
    }

    /** empty(): begin() is end(), and there are no members. */
    function Empty(): (r: bool)
      ensures r <==> Begin() == End()
      ensures r <==> KeySet(keys) == {}
    {
      if keys == [] then true
      else assert keys[0] in KeySet(keys); false
    }

    /** key_eq(): the equality policy, which identifies exactly equal keys. */
    function KeyEq(a: K, b: K): (r: bool)
      ensures r <==> a == b
    {
      a == b
    }

    /** find(k): hash k to its bucket and scan the bucket's occupants; End() when absent. */
    function Find(k: K): (r: nat)
      requires Shaped()
      ensures r <= End()
      ensures r < End() ==> KeyEq(keys[r], k)
    {
      if capacity == 0 then End()
      else ScanBucket(keys, table[BucketIndex(hasher, seed, capacity, k)], k)
    }

    /** count(k): 1 when find(k) reaches a key, else 0. */
    function Count(k: K): (r: nat)
      requires Shaped()
      ensures r <= 1
      ensures r == 1 ==> k in keys
    {
      if Find(k) != End() then 1 else 0
    }

    /** equal_range(k): the positions from find(k) to just past it, or (end, end) when absent. */
    function EqualRange(k: K): (r: (nat, nat))
      requires Shaped()
      ensures r.0 <= r.1 <= End()
      ensures r.1 - r.0 == Count(k)
      ensures r.0 == Find(k)
      ensures r.0 < r.1 ==> keys[r.0] == k
    {
      var i := Find(k);
      if i != End() then (i, i + 1) else (End(), End())
    }
  }

  /** On a constructed set, find(k) reaches a key exactly when k is a member. */
  lemma FindIsMembership<K>(s: FrozenSet<K>, k: K)
    requires s.Valid()
    ensures s.Find(k) != s.End() <==> k in s.keys
  {
    if k in s.keys {
      var i :| 0 <= i < |s.keys| && s.keys[i] == k;
      var b := BucketIndex(s.hasher, s.seed, s.capacity, k);
      BucketMembersSpec(s.keys, s.hasher, s.seed, s.capacity, b);
      assert i in s.table[b];
    }
  }

  /** Find is consistent with iteration: the key at position i is found at position i. */
  lemma FindAtPosition<K>(s: FrozenSet<K>, i: nat)
    requires s.Valid() && i < s.Size()
    ensures s.Find(s.keys[i]) == i
  {
    FindIsMembership(s, s.keys[i]);
  }

  /** count(k) is 1 for members and 0 for everything else. */
  lemma CountIsMembership<K>(s: FrozenSet<K>, k: K)
    requires s.Valid()
    ensures s.Count(k) == (if k in s.keys then 1 else 0)
  {
    FindIsMembership(s, k);
  }

  /** equal_range(k) spans exactly the member's position, or is empty at end(). */
  lemma EqualRangeIsMembership<K>(s: FrozenSet<K>, k: K)
    requires s.Valid()
    ensures k in s.keys ==> exists i :: 0 <= i < s.Size() && s.keys[i] == k && s.EqualRange(k) == (i, i + 1)
    ensures k !in s.keys ==> s.EqualRange(k) == (s.End(), s.End())
  {
    FindIsMembership(s, k);
  }

  /** Distinct keys make a set of exactly as many elements. */
  lemma {:induction false} DistinctKeySetSize<K>(keys: seq<K>)
    requires Distinct(keys)
    ensures |KeySet(keys)| == |keys|
    decreases |keys|
  {
    if keys != [] {
      var last := |keys| - 1;
      var init := keys[..last];
      DistinctKeySetSize(init);
      assert KeySet(keys) == KeySet(init) + {keys[last]};
      assert keys[last] !in KeySet(init);
    }
  }

  /** Iterating from begin() to end() visits size() keys, each one once, and nothing else. */
  lemma IterationVisitsEachKeyOnce<K>(s: FrozenSet<K>)
    requires s.Valid()
    ensures |KeySet(s.keys)| == s.Size() == s.End() - s.Begin()
    ensures forall i :: s.Begin() <= i < s.End() ==> s.Count(s.keys[i]) == 1
  {
    DistinctKeySetSize(s.keys);
    forall i | s.Begin() <= i < s.End()
      ensures s.Count(s.keys[i]) == 1
    {
      CountIsMembership(s, s.keys[i]);
    }
  }
}
