# frozen: minimal-standard engines and the frozen unordered set

This project models two parts of the frozen C++ library, as its tests exercise them.

**`frozen::minstd_rand0` and `frozen::minstd_rand`** are linear-congruential engines. Each holds a state `x` and three fixed parameters: multiplier A, increment C and modulus M. Both use C = 0 and M = 2^31 - 1. `minstd_rand0` uses A = 16807 and `minstd_rand` uses A = 48271. The default seed is 1. A call `operator()` sets `x := (A*x + C) mod M` and returns the new `x`. `discard(n)` makes n calls and throws their outputs away. `min()` is 1 when C = 0 (0 otherwise) and `max()` is M - 1. The engine is the class `Random.Engine`: it has a `state` field, a `Next` method and a looping `Discard` method. The pure functions `Step` and `Iterate` specify these methods. Lemmas prove the following about the engines:
- the skip law;
- that outputs stay within `[min(), max()]`, using a modular inverse of the multiplier (this is where the primality of M enters);
- outputs 1 to 3 and outputs 9 and 10 of `minstd_rand0`;
- the check value of ISO C++ [rand.predef]: the 10000th output of a default `minstd_rand0` is 1043618065. This is proved by square-and-multiply over a linearity lemma.

`Random.EngineScenario` replays the engine test case as a client method: the standard sequence, `discard(3)` against `discard(4)`, and a fresh engine that neither disturbs nor repeats the running one.

**`frozen::unordered_set<K, N>` and `frozen::make_unordered_set`** build an immutable set of distinct keys. It has a fixed capacity, a seed chosen at construction and a bucket table.
- `UnorderedSet.FrozenSet` is the value: the keys in input order, the capacity, the seed, the table (bucket → indices of the keys stored there) and the hasher.
- A key's bucket is `hasher(seed, key) mod capacity`. The hash function is not fixed by this model, so it is a parameter.
- `find` hashes the probe to its bucket and scans that bucket's occupants with the equality policy. `count`, `equal_range`, `size`, `max_size`, `empty`, `begin`/`end` and `key_eq` are defined on top of it. A position is an index into the key sequence, and `cbegin`/`cend` are `begin`/`end`.
- Construction (`Planner`) rejects duplicate keys, then rejects more keys than the capacity allows. It then tries the seeds that a fresh default `minstd_rand` produces, one per attempt, up to `MAX_ATTEMPTS` (1024). A seed is accepted when no bucket holds more than `PROBE_WIDTH` (4) keys, and the first accepted seed wins.
- `Planner.Plan` is the reference definition of construction. `Planner.Build` is the imperative construction: it draws seeds from an engine object and fills a bucket array in place for each seed. `Build` is proved equal to `Plan`.
- `TestKeys` holds the 129 keys of the comparison tests and proves them pairwise different.
- `SetScenarios` restates the set tests for every hash function. These are the singleton and three-key cases, parity with a reference set on the 129 test keys, and agreement between an explicitly sized set and one built by `make_unordered_set`.

Two design decisions follow the tests:
- `Next` returns the new state, as `std::minstd_rand0::operator()` does, which tests/test_rand.cpp:16-18 require.
- Keys keep their input order. tests/test_unordered_set.cpp:76-77 require `find(1) == begin()` on `{1, 2, 3}`, which input order satisfies for every hash.

## Model

| member | source | states |
|---|---|---|
| `Random.SkipLaw` | tests/test_rand.cpp:20-23 | i calls followed by j calls leave the state that i + j calls leave, so 4 calls then `discard(3)` meet 3 calls then `discard(4)` |
| `Random.InverseExcludesZero` | tests/test_rand.cpp:14 | a multiplier with an inverse modulo 2^31 - 1 never maps a state in [1, M-1] to 0 |
| `Random.MinstdNeverZero` | tests/test_rand.cpp:14 | neither 16807 nor 48271 ever maps a non-zero state to 0, which is why `min()` is 1 |
| `Random.OutputsInRange` | tests/test_rand.cpp:14-18 | every output of an increment-free engine started in [1, M-1] lies in [`min()`, `max()`] = [1, M-1] |
| `Random.IterateIsLinear` | tests/test_rand.cpp:21-22 | with C = 0, n calls multiply the state by the n-th output from state 1, modulo M |
| `Random.JumpIsIterate` | tests/test_rand.cpp:21-22 | from the default state 1, `discard(n)` reaches the state that modular exponentiation by repeated squaring computes |
| `Random.DiscardByJump` | tests/test_rand.cpp:21-22 | from any state x, `discard(n)` multiplies x by the n-th power of A modulo M, computed by repeated squaring |
| `Random.MinstdRand0CheckValue` | tests/test_rand.cpp:12-18 | the 10000th output of a default `minstd_rand0` is 1043618065, the standard engine's check value |
| `Random.MinstdRand0FirstOutputs` | tests/test_rand.cpp:16-18 | the first three outputs of a default `minstd_rand0` are 16807, 282475249 and 1622650073 |
| `Random.MinstdRand0LaterOutputs` | tests/test_rand.cpp:25-29 | outputs 9 and 10 are 1458777923 and 2007237709, so they differ from outputs 1 and 2 of a fresh engine |
| `Random.Engine.MinstdRand0` | tests/test_rand.cpp:12-15 | default construction: A = 16807, C = 0, M = 2^31 - 1, state 1, `min()` = 1, `max()` = 2147483646 |
| `Random.Engine.MinstdRand` | tests/test_rand.cpp:32 | default construction: A = 48271, C = 0, M = 2^31 - 1, state 1 |
| `Random.Engine.Min` | tests/test_rand.cpp:14 | `min()` is at most 1, and no call from a non-zero state of an increment-free engine returns less |
| `Random.Engine.Max` | tests/test_rand.cpp:15 | `max()` is below M, and no call returns more |
| `Random.Engine.Next` | tests/test_rand.cpp:16-18 | the new state is (A*x + C) mod M, the call returns the new state, and the result lies in [`min()`, `max()`] |
| `Random.Engine.Discard` | tests/test_rand.cpp:21-22 | the new state is the state after n calls, and the engine stays valid |
| `Random.EngineScenario` | tests/test_rand.cpp:10-35 | the test case as a client: `min()` = 1 and `max()` = 2147483646; the first three outputs are 16807, 282475249 and 1622650073; the output after 4 calls and `discard(3)` equals the one after 3 calls and `discard(4)`; outputs 9 and 10 differ from outputs 1 and 2 of a fresh engine |
| `UnorderedSet.BucketMembersSpec` | tests/test_unordered_set.cpp:118 | a key index is listed in bucket b exactly when its key hashes to b, and no bucket lists more indices than there are keys |
| `UnorderedSet.ScanBucket` | tests/test_unordered_set.cpp:28-32 | the in-bucket scan returns a listed index whose key equals the probe, or end when no listed key equals it |
| `UnorderedSet.FrozenSet.Size` | tests/test_unordered_set.cpp:16-17 | `size()` is the distance from `begin()` to `end()`, and for distinct keys the number of members |
| `UnorderedSet.FrozenSet.MaxSize` | tests/test_unordered_set.cpp:19-20 | `max_size()` is the number of buckets, and a constructed set's `size()` never exceeds it |
| `UnorderedSet.FrozenSet.Empty` | tests/test_unordered_set.cpp:13-14 | `empty()` holds exactly when `begin()` is `end()`, and exactly when there are no members |
| `UnorderedSet.FrozenSet.Begin` | tests/test_unordered_set.cpp:38-39 | `begin()` is at or before `end()`, and the positions from it on hold exactly the stored keys |
| `UnorderedSet.FrozenSet.End` | tests/test_unordered_set.cpp:38-39 | `end()` is one past the stored keys: the positions before it hold exactly the stored keys |
| `UnorderedSet.FrozenSet.KeyEq` | tests/test_unordered_set.cpp:45-47 | `key_eq()(a, b)` holds exactly when a and b are equal keys |
| `UnorderedSet.FrozenSet.Find` | tests/test_unordered_set.cpp:28-32 | `find` returns a position up to `end()`, and a position before `end()` holds a key equal to the probe |
| `UnorderedSet.FrozenSet.Count` | tests/test_unordered_set.cpp:22-26 | `count` is 0 or 1, and 1 only for a stored key |
| `UnorderedSet.FrozenSet.EqualRange` | tests/test_unordered_set.cpp:34-36 | `equal_range` starts at `find(k)`, its length is `count(k)`, and a non-empty range holds k |
| `UnorderedSet.FindIsMembership` | tests/test_unordered_set.cpp:73-77 | on a constructed set, `find(k) != end()` exactly when k is a member |
| `UnorderedSet.FindAtPosition` | tests/test_unordered_set.cpp:76-77 | the key at position i is found at position i, so `find` of the first-listed key is `begin()` |
| `UnorderedSet.CountIsMembership` | tests/test_unordered_set.cpp:67-71 | `count(k)` is 1 for a member and 0 for every other key |
| `UnorderedSet.EqualRangeIsMembership` | tests/test_unordered_set.cpp:79-80 | `equal_range` of a member spans exactly its position; for a non-member it is (`end()`, `end()`) |
| `UnorderedSet.DistinctKeySetSize` | tests/test_unordered_set.cpp:120 | distinct keys form a set of exactly as many elements |
| `UnorderedSet.IterationVisitsEachKeyOnce` | tests/test_unordered_set.cpp:123-124 | iteration from `begin()` to `end()` visits `size()` keys, all different, each with `count` 1 |
| `Planner.TrialSeed` | tests/test_unordered_set.cpp:118 | the seed tried at each attempt is an output of `minstd_rand`, in [1, M-1] |
| `Planner.SeedSearch` | tests/test_unordered_set.cpp:118 | a seed the search returns is acceptable and in [1, M-1], and no search starts past the attempt bound |
| `Planner.SeedSearchIsFirst` | tests/test_unordered_set.cpp:118 | the search returns the first acceptable trial seed; when it returns none, no remaining trial seed was acceptable |
| `Planner.Plan` | tests/test_unordered_set.cpp:118 | construction fails with `DuplicateKey` exactly when a key repeats, with `CapacityTooSmall` exactly when distinct keys exceed the capacity, and on success keeps keys, capacity and hasher and holds an acceptable seed's table |
| `Planner.PlanIsSound` | tests/test_unordered_set.cpp:56-65 | a constructed set is valid, keeps the keys, has `size()` = N, `max_size()` = capacity, `empty()` iff N = 0, and carries the first acceptable trial seed |
| `Planner.PlanSucceedsIff` | tests/test_unordered_set.cpp:118 | construction succeeds exactly when the keys are distinct, fit the capacity, and some trial seed within the bound is acceptable |
| `Planner.DuplicatesAreRejected` | tests/test_unordered_set.cpp:117-118 | two equal keys make construction fail with `DuplicateKey` |
| `Planner.SmallKeySetsBuild` | tests/test_unordered_set.cpp:56 | at most `PROBE_WIDTH` distinct keys within the capacity are accepted on the first trial seed, for every hash |
| `Planner.CheckDistinct` | tests/test_unordered_set.cpp:118 | the one-pass duplicate check answers true exactly when no key occurs twice |
| `Planner.FillTable` | tests/test_unordered_set.cpp:118 | filling the bucket array key by key yields the table the seed prescribes |
| `Planner.Build` | tests/test_unordered_set.cpp:11 | the constructor's result is the one `Plan` defines: the error, or the set with the first acceptable seed |
| `Planner.MakeUnorderedSet` | tests/test_unordered_set.cpp:162 | `make_unordered_set` is construction with capacity deduced as the number of keys |
| `SetScenarios.SingletonScenario` | tests/test_unordered_set.cpp:10-52 | `{1}` with capacity 1 builds for every hash; it is non-empty, size and max_size are 1, `count(3)` = 0, `count(1)` = 1, `find(3)` = end, `find(1)` = begin, `equal_range(1)` = (begin, end), begin < end, `key_eq(11, 11)` |
| `SetScenarios.TripletonScenario` | tests/test_unordered_set.cpp:55-96 | `{1, 2, 3}` with capacity 3 builds for every hash; it is non-empty, size and max_size are 3, `count(4)` = 0, `count(1)` = 1, `find(4)` = end, `find(1)` = begin, `equal_range(1)` starts before end, `key_eq(11, 11)` |
| `SetScenarios.CompareWithReference` | tests/test_unordered_set.cpp:120-124 | the comparison loops answer true exactly when sizes agree, every reference member has `count` 1, and every stored key is a reference member |
| `SetScenarios.ReferenceParity` | tests/test_unordered_set.cpp:117-124 | a constructed set passes that comparison against the reference set of its own keys |
| `TestKeys.InitKeysDistinct` | tests/test_unordered_set.cpp:102-115 | the 129 test keys are pairwise different |
| `SetScenarios.ReferenceScenario` | tests/test_unordered_set.cpp:117-124 | whenever some trial seed spreads the 129 test keys within the probe width, construction succeeds, the keys form a set of 129 members, and the set built agrees with the reference set |
| `SetScenarios.CompareContents` | tests/test_unordered_set.cpp:165-169 | the comparison loops answer true exactly when sizes agree and each set counts every key the other stores |
| `SetScenarios.SameKeysSameContents` | tests/test_unordered_set.cpp:165-169 | two constructed sets over the same keys have equal sizes and equal `count` for every probe, whatever their capacities and seeds |
| `SetScenarios.DeducedCapacityAgrees` | tests/test_unordered_set.cpp:160-170 | the set from `make_unordered_set` agrees in size and in every `count` with an explicitly sized set over the same keys |

## Left out

- The concrete hash function and `hash_function()`, with the test's claim that `hash_function()(1)` is non-zero (tests/test_unordered_set.cpp:41-43, 85-87). The hash is defined in `frozen/unordered_set.h` and its helpers, which are not part of this model. Every set carries the hash as a function of (seed, key) instead.
- The library's own construction algorithm, with its real probe width, attempt bound, seed source and bucket layout. Its header is not visible here; `Planner` is this model's own construction. `PROBE_WIDTH` = 4, `MAX_ATTEMPTS` = 1024 and the seeds of `Planner.TrialSeed` (the outputs of a fresh default `minstd_rand`) are this model's choices. Only the acceptance condition and the bounded retry are specified, and construction exhausting its attempts is modelled as an error.
- A custom `KeyEqual` policy. `UnorderedSet.FrozenSet.KeyEq` is fixed to `==`, the default `std::equal_to` that the tests use.
- The benchmark section (tests/test_unordered_set.cpp:127-157). It measures wall-clock time and prints to the console.
- Compile-time (`constexpr`) evaluation and the zero-runtime-cost guarantee. These are properties of the C++ toolchain.
- `std::linear_congruential_engine<std::size_t, 3, 3, 12345>` (tests/test_rand.cpp:33). The test only constructs it.
- Explicit seeding and engine equality. The tests use neither, and the engine header is not part of this model.
- `frozen/string.h` key adapters, `std::for_each` over the sets, and the test harness. The harness only checks that these compile.
- Machine-word widths. Integers are unbounded, with `mod M` written out; `uint16_t` keys are modelled as `int`.
- `SetScenarios.ReferenceScenario`: requires that some trial seed spread the 129 keys within the probe width. For an abstract hash this cannot be proved; the distinctness of the keys is proved, not assumed.
- `SetScenarios.DeducedCapacityAgrees`: requires that both constructions succeeded, for the same reason.
