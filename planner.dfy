/**
  Construction of a frozen::unordered_set: a bounded seed search.

  The keys are checked for duplicates and against the capacity; then a
  default-constructed minstd_rand proposes seeds, one per attempt. A seed is
  accepted when the table it produces keeps every bucket within PROBE_WIDTH
  keys; the first accepted seed wins, and MAX_ATTEMPTS rejected seeds make the
  construction fail. No partially built set is ever returned.
*/
module Planner {
  import opened Wrappers
  import opened Random
  import opened UnorderedSet

  /** Seeds tried before the construction gives up. */
  const MAX_ATTEMPTS: nat := 1024

  datatype BuildError =
    | DuplicateKey          // two keys are equal under the equality policy
    | CapacityTooSmall      // more keys than the capacity allows
    | SeedSearchExhausted   // no acceptable seed within MAX_ATTEMPTS

  /** The seed tried at attempt t (from 0): the (t+1)-th output of a default minstd_rand. */
  function TrialSeed(t: nat): (seed: nat)
    ensures 0 < seed < MINSTD_MODULUS
  {
    MinstdNeverZero();
    OutputsInRange(MINSTD_RAND_MULTIPLIER, MINSTD_MODULUS, DEFAULT_SEED, t + 1);
    Iterate(MINSTD_RAND_MULTIPLIER, 0, MINSTD_MODULUS, DEFAULT_SEED, t + 1)
  }

  /** The seed search from attempt t on: the first acceptable trial seed, if any. */
  function SeedSearch<K>(keys: seq<K>, hasher: (nat, K) -> nat, capacity: nat, t: nat): (r: Option<nat>)
    requires |keys| <= capacity
    ensures r.Some? ==> Acceptable(keys, hasher, r.value, capacity) && 0 < r.value < MINSTD_MODULUS
    ensures t >= MAX_ATTEMPTS ==> r.None?
    decreases MAX_ATTEMPTS - t
  {
    if t >= MAX_ATTEMPTS then None
    else if Acceptable(keys, hasher, TrialSeed(t), capacity) then Some(TrialSeed(t))
    else SeedSearch(keys, hasher, capacity, t + 1)
  }

  /** The search returns the first acceptable trial seed; when it finds none, none of the remaining trials was acceptable. */
  lemma {:induction false} SeedSearchIsFirst<K>(keys: seq<K>, hasher: (nat, K) -> nat, capacity: nat, t: nat)
    requires |keys| <= capacity
    ensures SeedSearch(keys, hasher, capacity, t).Some? ==>
      (exists u :: t <= u < MAX_ATTEMPTS
         && SeedSearch(keys, hasher, capacity, t).value == TrialSeed(u)
         && Acceptable(keys, hasher, TrialSeed(u), capacity)
         && forall v :: t <= v < u ==> !Acceptable(keys, hasher, TrialSeed(v), capacity))
    ensures SeedSearch(keys, hasher, capacity, t).None? ==>
      forall u :: t <= u < MAX_ATTEMPTS ==> !Acceptable(keys, hasher, TrialSeed(u), capacity)
    decreases MAX_ATTEMPTS - t
  {
    if t < MAX_ATTEMPTS && !Acceptable(keys, hasher, TrialSeed(t), capacity) {
      SeedSearchIsFirst(keys, hasher, capacity, t + 1);
    }
  }

  /** The set that construction produces from keys and a capacity, or the reason there is none. */
  function Plan<K(==)>(keys: seq<K>, capacity: nat, hasher: (nat, K) -> nat): (r: Result<FrozenSet<K>, BuildError>)
    ensures r == Failure(DuplicateKey) <==> !Distinct(keys)
    ensures r == Failure(CapacityTooSmall) <==> Distinct(keys) && capacity < |keys|
    ensures r.Success? ==>
      && r.value.keys == keys && r.value.capacity == capacity && r.value.hasher == hasher
      && |keys| <= capacity && Acceptable(keys, hasher, r.value.seed, capacity)
      && r.value.table == PlannedTable(keys, hasher, r.value.seed, capacity)
  {
    if !Distinct(keys) then Failure(DuplicateKey)
    else if capacity < |keys| then Failure(CapacityTooSmall)
    else match SeedSearch(keys, hasher, capacity, 0)
      case None => Failure(SeedSearchExhausted)
      case Some(seed) => Success(FrozenSet(keys, capacity, seed, PlannedTable(keys, hasher, seed, capacity), hasher))
  }

  /**
    A constructed set is valid, keeps the given keys in order, has size N and
    max_size the capacity, and carries the first acceptable trial seed.
  */
  lemma PlanIsSound<K>(keys: seq<K>, capacity: nat, hasher: (nat, K) -> nat)
    requires Plan(keys, capacity, hasher).Success?
    ensures var s := Plan(keys, capacity, hasher).value;
      && s.Valid()
      && s.keys == keys
      && s.Size() == |keys| && s.MaxSize() == capacity && (s.Empty() <==> |keys| == 0)
      && (exists u :: 0 <= u < MAX_ATTEMPTS && s.seed == TrialSeed(u)
           && forall v :: 0 <= v < u ==> !Acceptable(keys, hasher, TrialSeed(v), capacity))
  {
    var s := Plan(keys, capacity, hasher).value;
    SeedSearchIsFirst(keys, hasher, capacity, 0);
    forall b, j | 0 <= b < |s.table| && j in s.table[b]
      ensures j < |keys|
    {
      BucketMembersSpec(keys, hasher, s.seed, capacity, b);
    }
  }

  /** Construction succeeds exactly when the keys are distinct, fit the capacity, and some trial seed is acceptable. */
  lemma PlanSucceedsIff<K>(keys: seq<K>, capacity: nat, hasher: (nat, K) -> nat)
    ensures Plan(keys, capacity, hasher).Success? <==>
      && Distinct(keys)
      && |keys| <= capacity
      && exists u :: 0 <= u < MAX_ATTEMPTS && Acceptable(keys, hasher, TrialSeed(u), capacity)
  {
    if Distinct(keys) && |keys| <= capacity {
      SeedSearchIsFirst(keys, hasher, capacity, 0);
    }
  }

  /** Duplicates are rejected before anything else is looked at. */
  lemma DuplicatesAreRejected<K>(keys: seq<K>, capacity: nat, hasher: (nat, K) -> nat, i: nat, j: nat)
    requires i < j < |keys| && keys[i] == keys[j]
    ensures Plan(keys, capacity, hasher) == Failure(DuplicateKey)
  {
  }

  /** With at most PROBE_WIDTH distinct keys that fit the capacity, the very first trial seed is accepted, whatever the hash. */
  lemma SmallKeySetsBuild<K>(keys: seq<K>, capacity: nat, hasher: (nat, K) -> nat)
    requires Distinct(keys) && |keys| <= capacity && |keys| <= PROBE_WIDTH
    ensures Plan(keys, capacity, hasher).Success?
    ensures Plan(keys, capacity, hasher).value.seed == TrialSeed(0)
  {
    var table := PlannedTable(keys, hasher, TrialSeed(0), capacity);
    forall b | 0 <= b < |table|
      ensures |table[b]| <= PROBE_WIDTH
    {
      BucketMembersSpec(keys, hasher, TrialSeed(0), capacity, b);
    }
  }

  /** Whether no key occurs twice, by one pass that remembers the keys seen so far. */
  method CheckDistinct<K(==)>(keys: seq<K>) returns (ok: bool)
    ensures ok <==> Distinct(keys)
  {
    var seen: set<K> := {};
    var i := 0;
    while i < |keys|
      invariant i <= |keys|
      invariant Distinct(keys[..i])
      invariant seen == KeySet(keys[..i])
    {
      if keys[i] in seen {
        var j :| 0 <= j < i && keys[..i][j] == keys[i];
        assert keys[j] == keys[i];
        return false;
      }
      assert keys[..i + 1] == keys[..i] + [keys[i]];
      seen := seen + {keys[i]};
      i := i + 1;
    }
    assert keys[..i] == keys;
    return true;
  }

  /** Fill a bucket table in place for one seed: each key index is appended to its bucket. */
  method FillTable<K>(keys: seq<K>, hasher: (nat, K) -> nat, seed: nat, capacity: nat) returns (table: seq<seq<nat>>)
    requires |keys| <= capacity
    ensures table == PlannedTable(keys, hasher, seed, capacity)
  {
    var buckets := new seq<nat>[capacity](_ => []);
    var i := 0;
    while i < |keys|
      invariant i <= |keys|
      invariant forall b :: 0 <= b < capacity ==> buckets[b] == BucketMembers(keys[..i], hasher, seed, capacity, b)
    {
      var b := BucketIndex(hasher, seed, capacity, keys[i]);
      assert keys[..i + 1][..i] == keys[..i];
      buckets[b] := buckets[b] + [i];
      i := i + 1;
    }
    assert keys[..i] == keys;
    table := buckets[..];
  }

  /**
    frozen::unordered_set<K, N>'s constructor: reject duplicates and overfull
    key lists, then try seeds from a fresh minstd_rand until one is acceptable.
  */
  method Build<K(==)>(keys: seq<K>, capacity: nat, hasher: (nat, K) -> nat) returns (r: Result<FrozenSet<K>, BuildError>)
    ensures r == Plan(keys, capacity, hasher)
  {
    var distinct := CheckDistinct(keys);
    if !distinct {
      return Failure(DuplicateKey);
    }
    if capacity < |keys| {
      return Failure(CapacityTooSmall);
    }
    var prg := new Engine.MinstdRand();
    var attempt := 0;
    while attempt < MAX_ATTEMPTS
      invariant attempt <= MAX_ATTEMPTS
      invariant prg.Valid()
      invariant prg.multiplier == MINSTD_RAND_MULTIPLIER && prg.increment == 0 && prg.modulus == MINSTD_MODULUS
      invariant prg.state == Iterate(MINSTD_RAND_MULTIPLIER, 0, MINSTD_MODULUS, DEFAULT_SEED, attempt)
      invariant SeedSearch(keys, hasher, capacity, 0) == SeedSearch(keys, hasher, capacity, attempt)
    {
      var seed := prg.Next();
      assert seed == TrialSeed(attempt);
      var table := FillTable(keys, hasher, seed, capacity);
      if WithinProbeWidth(table) {
        return Success(FrozenSet(keys, capacity, seed, table, hasher));
      }
      attempt := attempt + 1;
    }
    return Failure(SeedSearchExhausted);
  }

  /** frozen::make_unordered_set: the capacity is deduced as the number of keys. */
  method MakeUnorderedSet<K(==)>(keys: seq<K>, hasher: (nat, K) -> nat) returns (r: Result<FrozenSet<K>, BuildError>)
    ensures r == Plan(keys, |keys|, hasher)
  {
    r := Build(keys, |keys|, hasher);
  }
}
