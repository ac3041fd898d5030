/**
  The linear-congruential engines frozen::minstd_rand0 and frozen::minstd_rand.

  An engine holds a state x and three fixed parameters: multiplier A, increment C
  and modulus M. Each call replaces x by (A*x + C) mod M and returns the new x, so
  that the output stream is the one of std::minstd_rand0 / std::minstd_rand
  (ISO C++ [rand.eng.lcong], parameters of [rand.predef]).
*/
module Random {

  /** Modulus of both minimal-standard engines, 2^31 - 1. */
  const MINSTD_MODULUS: nat := 2147483647
  /** Multiplier of minstd_rand0. */
  const MINSTD_RAND0_MULTIPLIER: nat := 16807
  /** Multiplier of minstd_rand. */
  const MINSTD_RAND_MULTIPLIER: nat := 48271
  /** State of a default-constructed engine. */
  const DEFAULT_SEED: nat := 1

  /** One transition of the engine: the state that follows x. */
  function Step(a: nat, c: nat, m: nat, x: nat): (r: nat)
    requires 0 < m
    ensures r < m
  {
    (a * x + c) % m
  }

  /** The state after n calls starting from state x; it is also the n-th output (n >= 1). */
  function Iterate(a: nat, c: nat, m: nat, x: nat, n: nat): (r: nat)
    requires 0 < m
    ensures x < m ==> r < m
    decreases n
  {
    if n == 0 then x else Step(a, c, m, Iterate(a, c, m, x, n - 1))
  }

  /** Skip law: i calls followed by j calls leave the state that i + j calls leave. */
  lemma {:induction false} SkipLaw(a: nat, c: nat, m: nat, x: nat, i: nat, j: nat)
    requires 0 < m
    ensures Iterate(a, c, m, x, i + j) == Iterate(a, c, m, Iterate(a, c, m, x, i), j)
    decreases j
  {
    if j > 0 {
      SkipLaw(a, c, m, x, i, j - 1);
    }
  }

  /**
    Without an increment, a non-zero state never steps to 0. This is what makes
    1 the least output when C = 0; for the minimal-standard engines it follows
    from M being prime.
  */
  ghost predicate NeverZero(a: nat, m: nat)
    requires 0 < m
  {
    forall x :: 0 < x < m ==> Step(a, 0, m, x) != 0
  }

  /** If a has an inverse modulo 2^31 - 1, then a*x is not a multiple of it for 0 < x < 2^31 - 1. */
  lemma InverseExcludesZero(a: nat, inv: nat, x: nat)
    requires (a * inv) % MINSTD_MODULUS == 1
    requires 0 < x < MINSTD_MODULUS
    ensures Step(a, 0, MINSTD_MODULUS, x) != 0
  {
    var m := MINSTD_MODULUS;
    var q, r := (a * x) / m, (a * x) % m;
    var k := (a * inv) / m;
    assert a * x == m * q + r;
    assert a * inv == m * k + 1;
    calc {
      x;
      x * (a * inv) - x * (m * k);
      { assert x * (a * inv) == (a * x) * inv; }
      (a * x) * inv - x * (m * k);
      (m * q + r) * inv - x * (m * k);
      m * (q * inv - x * k) + r * inv;
    }
    NoMultipleBetween(m, q * inv - x * k);
  }

  /** No multiple of a positive m lies strictly between 0 and m. */
  lemma NoMultipleBetween(m: int, t: int)
    requires 0 < m
    ensures !(0 < m * t < m)
  {
    if t <= 0 {
      assert m * t <= 0;
    } else {
      assert m * t >= m;
    }
  }

  /** Both minimal-standard multipliers are invertible modulo 2^31 - 1, so neither engine reaches 0. */
  lemma MinstdNeverZero()
    ensures NeverZero(MINSTD_RAND0_MULTIPLIER, MINSTD_MODULUS)
    ensures NeverZero(MINSTD_RAND_MULTIPLIER, MINSTD_MODULUS)
  {
    forall x | 0 < x < MINSTD_MODULUS
      ensures Step(MINSTD_RAND0_MULTIPLIER, 0, MINSTD_MODULUS, x) != 0
      ensures Step(MINSTD_RAND_MULTIPLIER, 0, MINSTD_MODULUS, x) != 0
    {
      InverseExcludesZero(MINSTD_RAND0_MULTIPLIER, 1407677000, x);
      InverseExcludesZero(MINSTD_RAND_MULTIPLIER, 1899818559, x);
    }
  }

  /** Every output of an increment-free engine started in [1, M-1] stays in [1, M-1]. */
  lemma {:induction false} OutputsInRange(a: nat, m: nat, x: nat, n: nat)
    requires 0 < m && NeverZero(a, m)
    requires 0 < x < m
    ensures 0 < Iterate(a, 0, m, x, n) < m
  {
    if n > 0 {
      OutputsInRange(a, m, x, n - 1);
    }
  }

  /** Adding a multiple of 2^31 - 1 does not change a residue. */
  lemma MulModRight(a: nat, b: nat)
    ensures (a * (b % MINSTD_MODULUS)) % MINSTD_MODULUS == (a * b) % MINSTD_MODULUS
  {
    var m := MINSTD_MODULUS;
    var q, r := b / m, b % m;
    assert a * b == m * (a * q) + a * r;
  }

  /**
    Without an increment, n calls multiply the state by the n-th output of an
    engine started at 1: the engine is linear in its state.
  */
  lemma {:induction false} IterateIsLinear(a: nat, x: nat, n: nat)
    requires x < MINSTD_MODULUS
    ensures Iterate(a, 0, MINSTD_MODULUS, x, n)
         == (Iterate(a, 0, MINSTD_MODULUS, 1, n) * x) % MINSTD_MODULUS
  {
    var m := MINSTD_MODULUS;
    if n > 0 {
      IterateIsLinear(a, x, n - 1);
      MulModShift(a, Iterate(a, 0, m, 1, n - 1), x);
    }
  }

  /** Multiplying residues: a * ((j * x) mod M) and ((a * j) mod M) * x agree modulo M. */
  lemma MulModShift(a: nat, j: nat, x: nat)
    ensures (a * ((j * x) % MINSTD_MODULUS)) % MINSTD_MODULUS
         == (((a * j) % MINSTD_MODULUS) * x) % MINSTD_MODULUS
  {
    MulModRight(a, j * x);
    MulModRight(x, a * j);
    assert a * (j * x) == x * (a * j);
    assert x * ((a * j) % MINSTD_MODULUS) == ((a * j) % MINSTD_MODULUS) * x;
  }

  /** The multiplier of n steps of an increment-free minimal-standard engine, by repeated squaring. */
  function Jump(a: nat, n: nat): (j: nat)
    ensures j < MINSTD_MODULUS
    decreases n
  {
    if n == 0 then 1
    else if n % 2 == 0 then (Jump(a, n / 2) * Jump(a, n / 2)) % MINSTD_MODULUS
    else (a * Jump(a, n - 1)) % MINSTD_MODULUS
  }

  /** discard(n) can be computed by modular exponentiation: Jump gives the state after n calls from 1. */
  lemma {:induction false} JumpIsIterate(a: nat, n: nat)
    ensures Jump(a, n) == Iterate(a, 0, MINSTD_MODULUS, 1, n)
    decreases n
  {
    var m := MINSTD_MODULUS;
    if n == 0 {
    } else if n % 2 == 0 {
      var h := n / 2;
      JumpIsIterate(a, h);
      var j := Iterate(a, 0, m, 1, h);
      SkipLaw(a, 0, m, 1, h, h);
      IterateIsLinear(a, j, h);
    } else {
      JumpIsIterate(a, n - 1);
    }
  }

  /** A residue is fixed by its quotient: if x = q*M + r with r in [0, M), then x mod M is r. */
  lemma ModOfDivision(x: int, q: int, r: int)
    requires x == q * MINSTD_MODULUS + r && 0 <= r < MINSTD_MODULUS
    ensures x % MINSTD_MODULUS == r
  {
  }

  /** discard(n) from any state x multiplies x by Jump(a, n), modulo M. */
  lemma DiscardByJump(a: nat, x: nat, n: nat)
    requires x < MINSTD_MODULUS
    ensures Iterate(a, 0, MINSTD_MODULUS, x, n) == (Jump(a, n) * x) % MINSTD_MODULUS
  {
    JumpIsIterate(a, n);
    IterateIsLinear(a, x, n);
  }

  /** One squaring step of Jump: if v*v = q*M + w, the multiplier of 2n calls is w. */
  lemma JumpDoubles(a: nat, n: nat, v: nat, q: nat, w: nat)
    requires 0 < n && Jump(a, n) == v
    requires v * v == q * MINSTD_MODULUS + w && w < MINSTD_MODULUS
    ensures Jump(a, 2 * n) == w
  {
    ModOfDivision(v * v, q, w);
  }

  /** One multiplying step of Jump, for even n: if a*v = q*M + w, the multiplier of n + 1 calls is w. */
  lemma JumpIncrements(a: nat, n: nat, v: nat, q: nat, w: nat)
    requires n % 2 == 0 && Jump(a, n) == v
    requires a * v == q * MINSTD_MODULUS + w && w < MINSTD_MODULUS
    ensures Jump(a, n + 1) == w
  {
    ModOfDivision(a * v, q, w);
  }

  /** Repeated squaring of 16807 modulo M reaches 1043618065 after 10000 calls. */
  lemma JumpToCheckValue()
    ensures Jump(MINSTD_RAND0_MULTIPLIER, 10000) == 1043618065
  {
    // square-and-multiply from 1 call up to 10000, each product with its quotient by M
    var a := MINSTD_RAND0_MULTIPLIER;
    JumpIncrements(a, 0, 1, 0, 16807);
    JumpDoubles(a, 1, 16807, 0, 282475249);
    JumpDoubles(a, 2, 282475249, 37156169, 984943658);
    JumpDoubles(a, 4, 984943658, 451744538, 1457850878);
    JumpIncrements(a, 8, 1457850878, 11409, 1458777923);
    JumpDoubles(a, 9, 1458777923, 990942600, 16531729);
    JumpIncrements(a, 18, 16531729, 129, 823378840);
    JumpDoubles(a, 19, 823378840, 315696333, 1624379149);
    JumpIncrements(a, 38, 1624379149, 12712, 2128236579);
    JumpDoubles(a, 39, 2128236579, 2109162015, 107554536);
    JumpDoubles(a, 78, 107554536, 5386759, 1351345223);
    JumpDoubles(a, 156, 1351345223, 850359868, 1129841133);
    JumpDoubles(a, 312, 1129841133, 594435719, 73536496);
    JumpIncrements(a, 624, 73536496, 575, 1124791247);
    JumpDoubles(a, 625, 1124791247, 589133868, 1903958413);
    JumpDoubles(a, 1250, 1903958413, 1688049007, 566390040);
    JumpDoubles(a, 2500, 566390040, 149383059, 1069865427);
    JumpDoubles(a, 5000, 1069865427, 533001512, 1043618065);
  }

  /** The check value of [rand.predef]: the 10000th output of a default minstd_rand0 is 1043618065. */
  lemma MinstdRand0CheckValue()
    ensures Iterate(MINSTD_RAND0_MULTIPLIER, 0, MINSTD_MODULUS, DEFAULT_SEED, 10000) == 1043618065
  {
    JumpToCheckValue();
    JumpIsIterate(MINSTD_RAND0_MULTIPLIER, 10000);
  }

  /** A linear-congruential engine; its state changes on every call. */
  class Engine {
    const multiplier: nat
    const increment: nat
    const modulus: nat
    var state: nat

    /** The state is a residue modulo M, and 0 is unreachable when there is no increment. */
    ghost predicate Valid()
      reads this
    {
      && 1 < modulus
      && state < modulus
      && (increment == 0 ==> 0 < state && NeverZero(multiplier, modulus))
    }

    /** A default-constructed frozen::minstd_rand0. */
    constructor MinstdRand0()
      ensures Valid()
      ensures multiplier == MINSTD_RAND0_MULTIPLIER && increment == 0 && modulus == MINSTD_MODULUS
      ensures state == DEFAULT_SEED
      ensures Min() == 1 && Max() == 2147483646
    {
      multiplier, increment, modulus := MINSTD_RAND0_MULTIPLIER, 0, MINSTD_MODULUS;
      state := DEFAULT_SEED;
      MinstdNeverZero();
    }

    /** A default-constructed frozen::minstd_rand. */
    constructor MinstdRand()
      ensures Valid()
      ensures multiplier == MINSTD_RAND_MULTIPLIER && increment == 0 && modulus == MINSTD_MODULUS
      ensures state == DEFAULT_SEED
      ensures Min() == 1 && Max() == 2147483646
    {
      multiplier, increment, modulus := MINSTD_RAND_MULTIPLIER, 0, MINSTD_MODULUS;
      state := DEFAULT_SEED;
      MinstdNeverZero();
    }

    /** min(): no call returns less; 1 without an increment, since 0 is then unreachable, otherwise 0. */
    function Min(): (lo: nat)
      ensures lo <= 1
      ensures increment == 0 && 1 < modulus && NeverZero(multiplier, modulus) ==>
        forall x :: 0 < x < modulus ==> lo <= Step(multiplier, increment, modulus, x)
    {
      if increment == 0 then 1 else 0
    }

    /** max(): no call returns more, and it is the largest residue modulo M. */
    function Max(): (hi: nat)
      requires 0 < modulus
      ensures hi < modulus
      ensures forall x :: Step(multiplier, increment, modulus, x) <= hi
    {
      modulus - 1
    }

    /** operator(): advance the state and return the new state. */
    method Next() returns (r: nat)
      requires Valid()
      modifies this
      ensures Valid()
      ensures state == Step(multiplier, increment, modulus, old(state))
      ensures r == state
      ensures Min() <= r <= Max()
    {
      state := Step(multiplier, increment, modulus, state);
      r := state;
    }

    /** discard(n): n calls whose outputs are thrown away. */
    method Discard(n: nat)
      requires Valid()
      modifies this
      ensures Valid()
      ensures state == Iterate(multiplier, increment, modulus, old(state), n)
    {
      var k := 0;
      while k < n
        invariant k <= n && Valid()
        invariant state == Iterate(multiplier, increment, modulus, old(state), k)
      {
        var _ := Next();
        k := k + 1;
      }
    }
  }

  /** The first three outputs of a default minstd_rand0 are those of the standard engine. */
  lemma MinstdRand0FirstOutputs()
    ensures Iterate(MINSTD_RAND0_MULTIPLIER, 0, MINSTD_MODULUS, DEFAULT_SEED, 1) == 16807
    ensures Iterate(MINSTD_RAND0_MULTIPLIER, 0, MINSTD_MODULUS, DEFAULT_SEED, 2) == 282475249
    ensures Iterate(MINSTD_RAND0_MULTIPLIER, 0, MINSTD_MODULUS, DEFAULT_SEED, 3) == 1622650073
  {
  }

  /** Outputs 9 and 10 of a default minstd_rand0, which its tests compare with outputs 1 and 2. */
  lemma MinstdRand0LaterOutputs()
    ensures Iterate(MINSTD_RAND0_MULTIPLIER, 0, MINSTD_MODULUS, DEFAULT_SEED, 9) == 1458777923
    ensures Iterate(MINSTD_RAND0_MULTIPLIER, 0, MINSTD_MODULUS, DEFAULT_SEED, 10) == 2007237709
  {
    MinstdRand0FirstOutputs();
    assert Iterate(MINSTD_RAND0_MULTIPLIER, 0, MINSTD_MODULUS, DEFAULT_SEED, 4) == 984943658;
    assert Iterate(MINSTD_RAND0_MULTIPLIER, 0, MINSTD_MODULUS, DEFAULT_SEED, 5) == 1144108930;
    assert Iterate(MINSTD_RAND0_MULTIPLIER, 0, MINSTD_MODULUS, DEFAULT_SEED, 6) == 470211272;
    assert Iterate(MINSTD_RAND0_MULTIPLIER, 0, MINSTD_MODULUS, DEFAULT_SEED, 7) == 101027544;
    assert Iterate(MINSTD_RAND0_MULTIPLIER, 0, MINSTD_MODULUS, DEFAULT_SEED, 8) == 1457850878;
    assert Iterate(MINSTD_RAND0_MULTIPLIER, 0, MINSTD_MODULUS, DEFAULT_SEED, 9) == 1458777923;
    assert Iterate(MINSTD_RAND0_MULTIPLIER, 0, MINSTD_MODULUS, DEFAULT_SEED, 10) == 2007237709;
  }

  /**
    The linear_congruential_engine test case: frozen::minstd_rand0 against the
    standard sequence, the skip law between discard(3) and discard(4), and a
    fresh engine that neither disturbs nor repeats the one already running.
    It returns what the test compares: min() and max(), the first three
    outputs, the output after 4 calls and discard(3), and outputs 9 and 10
    beside the first two outputs of a second engine.
  */
  method EngineScenario() returns (bounds: (nat, nat), standard: seq<nat>, skipped: nat, running: seq<nat>, second: seq<nat>)
    ensures bounds == (1, 2147483646)
    ensures standard == [16807, 282475249, 1622650073]
    ensures skipped == Step(MINSTD_RAND0_MULTIPLIER, 0, MINSTD_MODULUS,
      Iterate(MINSTD_RAND0_MULTIPLIER, 0, MINSTD_MODULUS, Iterate(MINSTD_RAND0_MULTIPLIER, 0, MINSTD_MODULUS, DEFAULT_SEED, 3), 4))
    ensures |running| == |second| == 2
    ensures running[0] != second[0] && running[1] != second[1]
    ensures second == [16807, 282475249]
  {
    var m, a := MINSTD_MODULUS, MINSTD_RAND0_MULTIPLIER;
    var dist0 := new Engine.MinstdRand0();
    bounds := (dist0.Min(), dist0.Max());
    MinstdRand0FirstOutputs();
    var o1 := dist0.Next();
    var o2 := dist0.Next();
    var o3 := dist0.Next();
    standard := [o1, o2, o3];
    assert dist0.state == Iterate(a, 0, m, DEFAULT_SEED, 3);

    // dist0: 4 calls, then discard(3); the standard engine: 3 calls, then discard(4)
    var next0 := dist0.Next();
    assert dist0.state == Iterate(a, 0, m, DEFAULT_SEED, 4);
    dist0.Discard(3);
    SkipLaw(a, 0, m, DEFAULT_SEED, 4, 3);
    SkipLaw(a, 0, m, DEFAULT_SEED, 3, 4);
    assert dist0.state == Iterate(a, 0, m, Iterate(a, 0, m, DEFAULT_SEED, 3), 4);
    skipped := dist0.Next();
    assert skipped == Iterate(a, 0, m, DEFAULT_SEED, 8);

    var before := dist0.state;
    var odist0 := new Engine.MinstdRand0();
    assert dist0.state == before;
    MinstdRand0LaterOutputs();
    var o9 := dist0.Next();
    var p1 := odist0.Next();
    assert o9 == 1458777923 && p1 == 16807;
    var o10 := dist0.Next();
    var p2 := odist0.Next();
    assert o10 == 2007237709 && p2 == 282475249;
    running, second := [o9, o10], [p1, p2];

    var dist1 := new Engine.MinstdRand();
    assert dist1.state == DEFAULT_SEED;
  }
}
