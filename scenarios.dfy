/**
  The behaviour the unordered-set tests ask of frozen::unordered_set and
  frozen::make_unordered_set, stated for every hash function: the singleton
  and three-key sets, parity with a reference set on 129 keys, and agreement
  between an explicitly sized set and one whose capacity is deduced.
*/
module SetScenarios {
  import opened Wrappers
  import opened UnorderedSet
  import opened Planner
  import opened TestKeys

  /** The singleton test: frozen::unordered_set<int, 1>{1}. */
  lemma SingletonScenario(hasher: (nat, int) -> nat)
    ensures Plan([1], 1, hasher).Success?
    ensures var s := Plan([1], 1, hasher).value;
      && s.Shaped()
      && !s.Empty() && s.Size() == 1 && s.MaxSize() == 1
      && s.Count(3) == 0 && s.Count(1) == 1
      && s.Find(3) == s.End() && s.Find(1) == s.Begin()
      && s.EqualRange(1) == (s.Begin(), s.End())
      && s.Begin() != s.End() && s.Begin() < s.End()
      && s.KeyEq(11, 11)
  {
    SmallKeySetsBuild([1], 1, hasher);
    var s := Plan([1], 1, hasher).value;
    PlanIsSound([1], 1, hasher);
    CountIsMembership(s, 3);
    FindAtPosition(s, 0);
  }

  /** The three-key test: frozen::unordered_set<uint16_t, 3>{1, 2, 3}. */
  lemma TripletonScenario(hasher: (nat, int) -> nat)
    ensures Plan([1, 2, 3], 3, hasher).Success?
    ensures var s := Plan([1, 2, 3], 3, hasher).value;
      && s.Shaped()
      && !s.Empty() && s.Size() == 3 && s.MaxSize() == 3
      && s.Count(4) == 0 && s.Count(1) == 1
      && s.Find(4) == s.End() && s.Find(1) == s.Begin()
      && s.EqualRange(1).0 != s.End()
      && s.Begin() != s.End()
      && s.KeyEq(11, 11)
  {
    SmallKeySetsBuild([1, 2, 3], 3, hasher);
    var s := Plan([1, 2, 3], 3, hasher).value;
    PlanIsSound([1, 2, 3], 3, hasher);
    CountIsMembership(s, 4);
    FindAtPosition(s, 0);
  }

  /** What the comparison with std::unordered_set checks: equal sizes, every reference member counted, every stored key a reference member. */
  predicate AgreesWithReference<K(==)>(s: FrozenSet<K>, reference: set<K>)
    requires s.Shaped()
  {
    && s.Size() == |reference|
    && (forall v :: v in reference ==> s.Count(v) == 1)
    && (forall i :: 0 <= i < s.Size() ==> s.keys[i] in reference)
  }

  /** The comparison loops of the test against std::unordered_set. */
  method CompareWithReference<K(==)>(s: FrozenSet<K>, reference: set<K>) returns (ok: bool)
    requires s.Shaped()
    ensures ok <==> AgreesWithReference(s, reference)
  {
    if s.Size() != |reference| {
      return false;
    }
    var rest := reference;
    while rest != {}
      invariant rest <= reference
      invariant forall v :: v in reference && v !in rest ==> s.Count(v) == 1
      decreases rest
    {
      var v :| v in rest;
      if s.Count(v) != 1 {
        return false;
      }
      rest := rest - {v};
    }
    var i := 0;
    while i < s.Size()
      invariant i <= s.Size()
      invariant forall j :: 0 <= j < i ==> s.keys[j] in reference
    {
      if s.keys[i] !in reference {
        return false;
      }
      i := i + 1;
    }
    return true;
  }

  /** A constructed set agrees with the reference set built from the same keys. */
  lemma ReferenceParity<K>(s: FrozenSet<K>, reference: set<K>)
    requires s.Valid() && reference == KeySet(s.keys)
    ensures AgreesWithReference(s, reference)
  {
    IterationVisitsEachKeyOnce(s);
    forall v | v in reference
      ensures s.Count(v) == 1
    {
      CountIsMembership(s, v);
    }
  }

  /** What the comparison of two sets checks: equal sizes, and each one counts every key the other stores. */
  predicate SameContents<K(==)>(s1: FrozenSet<K>, s2: FrozenSet<K>)
    requires s1.Shaped() && s2.Shaped()
  {
    && s1.Size() == s2.Size()
    && (forall i :: 0 <= i < s2.Size() ==> s1.Count(s2.keys[i]) == 1)
    && (forall i :: 0 <= i < s1.Size() ==> s2.Count(s1.keys[i]) == 1)
  }

  /** The comparison loops of the make_unordered_set test. */
  method CompareContents<K(==)>(s1: FrozenSet<K>, s2: FrozenSet<K>) returns (ok: bool)
    requires s1.Shaped() && s2.Shaped()
    ensures ok <==> SameContents(s1, s2)
  {
    if s1.Size() != s2.Size() {
      return false;
    }
    var i := 0;
    while i < s2.Size()
      invariant i <= s2.Size()
      invariant forall j :: 0 <= j < i ==> s1.Count(s2.keys[j]) == 1
    {
      if s1.Count(s2.keys[i]) != 1 {
        return false;
      }
      i := i + 1;
    }
    i := 0;
    while i < s1.Size()
      invariant i <= s1.Size()
      invariant forall j :: 0 <= j < i ==> s2.Count(s1.keys[j]) == 1
    {
      if s2.Count(s1.keys[i]) != 1 {
        return false;
      }
      i := i + 1;
    }
    return true;
  }

  /** Two constructed sets over the same keys have the same size and answer every count alike, whatever their capacities and seeds. */
  lemma SameKeysSameContents<K>(s1: FrozenSet<K>, s2: FrozenSet<K>)
    requires s1.Valid() && s2.Valid() && KeySet(s1.keys) == KeySet(s2.keys)
    ensures SameContents(s1, s2)
    ensures forall k :: s1.Count(k) == s2.Count(k)
  {
    DistinctKeySetSize(s1.keys);
    DistinctKeySetSize(s2.keys);
    forall k
      ensures s1.Count(k) == s2.Count(k)
    {
      CountIsMembership(s1, k);
      CountIsMembership(s2, k);
      assert k in s1.keys <==> k in KeySet(s1.keys);
      assert k in s2.keys <==> k in KeySet(s2.keys);
    }
    forall i | 0 <= i < s2.Size()
      ensures s1.Count(s2.keys[i]) == 1
    {
      CountIsMembership(s2, s2.keys[i]);
    }
    forall i | 0 <= i < s1.Size()
      ensures s2.Count(s1.keys[i]) == 1
    {
      CountIsMembership(s1, s1.keys[i]);
    }
  }

  /**
    frozen::unordered_set<int, 129>{INIT_SEQ} agrees with
    std::unordered_set<int>{INIT_SEQ} whenever some trial seed spreads the keys
    within the probe width: construction then succeeds, and the resulting set
    passes the comparison with the reference set.
  */
  lemma ReferenceScenario(hasher: (nat, int) -> nat)
    requires exists u :: 0 <= u < MAX_ATTEMPTS && Acceptable(INIT_SEQ, hasher, TrialSeed(u), 129)
    ensures |KeySet(INIT_SEQ)| == |INIT_SEQ| == 129
    ensures Plan(INIT_SEQ, 129, hasher).Success?
    ensures var s := Plan(INIT_SEQ, 129, hasher).value;
      s.Shaped() && AgreesWithReference(s, KeySet(INIT_SEQ))
  {
    InitKeysDistinct();
    PlanSucceedsIff(INIT_SEQ, 129, hasher);
    PlanIsSound(INIT_SEQ, 129, hasher);
    DistinctKeySetSize(INIT_SEQ);
    ReferenceParity(Plan(INIT_SEQ, 129, hasher).value, KeySet(INIT_SEQ));
  }

  /**
    make_unordered_set deduces the capacity from the number of keys; the set it
    builds agrees with any explicitly sized set built from the same keys.
  */
  lemma DeducedCapacityAgrees<K>(keys: seq<K>, capacity: nat, hasher: (nat, K) -> nat)
    requires Plan(keys, capacity, hasher).Success? && Plan(keys, |keys|, hasher).Success?
    ensures var s1, s2 := Plan(keys, capacity, hasher).value, Plan(keys, |keys|, hasher).value;
      && s1.Shaped() && s2.Shaped()
      && SameContents(s1, s2)
      && forall k :: s1.Count(k) == s2.Count(k)
  {
    PlanIsSound(keys, capacity, hasher);
    PlanIsSound(keys, |keys|, hasher);
    SameKeysSameContents(Plan(keys, capacity, hasher).value, Plan(keys, |keys|, hasher).value);
  }
}
