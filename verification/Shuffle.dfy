/** The pseudo-random transmission order of the oracles and the delay it gives each of them. */
module Shuffle {
  import opened Options
  import opened Ledger

  // ----- Fisher-Yates -----

  predicate UnitInterval(draws: seq<real>) {
    forall i :: 0 <= i < |draws| ==> 0.0 <= draws[i] < 1.0
  }

  /** The position drawn for index `i`: a generator value in [0, 1) scaled to 0..i. */
  function Choice(draw: real, i: nat): (j: nat)
    requires 0.0 <= draw < 1.0
    ensures j <= i
    ensures j as real <= draw * (i + 1) as real < (j + 1) as real
  {
    var scaled := draw * (i + 1) as real;
    ScaledWithin(draw, (i + 1) as real);
    FloorBelow(scaled, i + 1);
    scaled.Floor
  }

  lemma FloorBelow(x: real, bound: nat)
    requires 0.0 <= x < bound as real
    ensures 0 <= x.Floor < bound
  {
  }

  lemma ScaledWithin(draw: real, bound: real)
    requires 0.0 <= draw < 1.0 && 0.0 < bound
    ensures 0.0 <= draw * bound < bound
  {
  }

  function Swap<T>(s: seq<T>, i: nat, j: nat): (r: seq<T>)
    requires i < |s| && j < |s|
    ensures |r| == |s|
    ensures r[i] == s[j] && r[j] == s[i] && forall k :: 0 <= k < |s| && k != i && k != j ==> r[k] == s[k]
  {
    s[i := s[j]][j := s[i]]
  }

  /** Choices for indices i, i-1, ..., 1. */
  predicate ValidChoices(choices: seq<nat>, i: nat) {
    |choices| == i && forall k :: 0 <= k < i ==> choices[k] <= i - k
  }

  /** The array after swapping index i, then i-1, ..., then 1, with the chosen positions. */
  function Shuffled<T>(s: seq<T>, i: nat, choices: seq<nat>): (r: seq<T>)
    requires ValidChoices(choices, i) && (s == [] ==> i == 0) && (s != [] ==> i < |s|)
    ensures |r| == |s|
    ensures forall k :: i < k < |s| ==> r[k] == s[k]
    decreases i
  {
    if i == 0 then s
    else Shuffled(Swap(s, i, choices[0]), i - 1, choices[1..])
  }

  function Choices(draws: seq<real>, i: nat): (choices: seq<nat>)
    requires UnitInterval(draws) && |draws| >= i
    ensures ValidChoices(choices, i)
    decreases i
  {
    if i == 0 then [] else [Choice(draws[0], i)] + Choices(draws[1..], i - 1)
  }

  /** The permutation that the generator values `draws` produce. */
  function Permutation<T>(s: seq<T>, draws: seq<real>): (r: seq<T>)
    requires UnitInterval(draws) && |draws| + 1 >= |s|
    ensures |r| == |s|
  {
    var last := if s == [] then 0 else |s| - 1;
    Shuffled(s, last, Choices(draws, last))
  }

  lemma SwapMultiset<T>(s: seq<T>, i: nat, j: nat)
    requires i < |s| && j < |s|
    ensures multiset(Swap(s, i, j)) == multiset(s)
  {
  }

  lemma {:induction false} ShuffledMultiset<T>(s: seq<T>, i: nat, choices: seq<nat>)
    requires ValidChoices(choices, i) && (s == [] ==> i == 0) && (s != [] ==> i < |s|)
    ensures multiset(Shuffled(s, i, choices)) == multiset(s)
    decreases i
  {
    if i > 0 {
      SwapMultiset(s, i, choices[0]);
      ShuffledMultiset(Swap(s, i, choices[0]), i - 1, choices[1..]);
    }
  }

  /** For any generator values in [0, 1) the result is a permutation. */
  lemma PermutationMultiset<T>(s: seq<T>, draws: seq<real>)
    requires UnitInterval(draws) && |draws| + 1 >= |s|
    ensures multiset(Permutation(s, draws)) == multiset(s)
  {
    var last := if s == [] then 0 else |s| - 1;
    ShuffledMultiset(s, last, Choices(draws, last));
  }

  /** What remains to be done at index `i`, with the generator called `calls` times so far. */
  function Remaining<T>(s: seq<T>, i: nat, draws: seq<real>, calls: nat): seq<T>
    requires UnitInterval(draws) && calls + i <= |draws| && (s == [] ==> i == 0) && (s != [] ==> i < |s|)
  {
    Shuffled(s, i, Choices(draws[calls..], i))
  }

  lemma RemainingStep<T>(s: seq<T>, i: nat, draws: seq<real>, calls: nat)
    requires UnitInterval(draws) && calls + i <= |draws| && 0 < i < |s|
    ensures Remaining(s, i, draws, calls) == Remaining(Swap(s, i, Choice(draws[calls], i)), i - 1, draws, calls + 1)
  {
    assert draws[calls..][1..] == draws[calls + 1..];
    assert Choices(draws[calls..], i)[1..] == Choices(draws[calls + 1..], i - 1);
  }

  lemma RemainingAll<T>(s: seq<T>, draws: seq<real>)
    requires UnitInterval(draws) && |draws| + 1 >= |s|
    ensures Remaining(s, if s == [] then 0 else |s| - 1, draws, 0) == Permutation(s, draws)
  {
    assert draws[0..] == draws;
  }

  /** `randomPermutation`, in place; the n-th call of the generator returns `draws[n]`. */
  method RandomPermutation<T>(a: array<T>, draws: seq<real>)
    requires UnitInterval(draws) && |draws| + 1 >= a.Length
    modifies a
    ensures a[..] == Permutation(old(a[..]), draws)
  {
    RemainingAll(a[..], draws);
    var i := a.Length - 1;
    var calls := 0;
    while i > 0
      invariant a.Length > 0 ==> 0 <= i < a.Length && calls == a.Length - 1 - i
      invariant a.Length > 0 ==> Remaining(a[..], i, draws, calls) == Permutation(old(a[..]), draws)
      invariant a.Length == 0 ==> i == -1
    {
      var j := Choice(draws[calls], i);
      RemainingStep(a[..], i, draws, calls);
      ghost var swapped := Swap(a[..], i, j);
      a[i], a[j] := a[j], a[i];
      assert a[..] == swapped;
      calls := calls + 1;
      i := i - 1;
    }
  }

  // ----- Every order is drawn by exactly one sequence of choices -----

  predicate Distinct<T(==)>(s: seq<T>) {
    forall i, j :: 0 <= i < j < |s| ==> s[i] != s[j]
  }

  lemma SwapDistinct<T>(s: seq<T>, i: nat, j: nat)
    requires Distinct(s) && i < |s| && j < |s|
    ensures Distinct(Swap(s, i, j))
  {
  }

  lemma {:induction false} ChoicesUnique<T>(s: seq<T>, i: nat, c: seq<nat>, d: seq<nat>)
    requires Distinct(s) && i < |s| && ValidChoices(c, i) && ValidChoices(d, i)
    requires Shuffled(s, i, c) == Shuffled(s, i, d)
    ensures c == d
    decreases i
  {
    if i > 0 {
      assert Shuffled(s, i, c)[i] == s[c[0]];
      assert Shuffled(s, i, d)[i] == s[d[0]];
      SwapDistinct(s, i, c[0]);
      ChoicesUnique(Swap(s, i, c[0]), i - 1, c[1..], d[1..]);
      assert c == [c[0]] + c[1..] && d == [d[0]] + d[1..];
    }
  }

  lemma {:induction false} ChoicesExist<T>(s: seq<T>, i: nat, t: seq<T>) returns (choices: seq<nat>)
    requires Distinct(s) && i < |s| && |t| == |s| && multiset(s) == multiset(t)
    requires forall k :: i < k < |s| ==> t[k] == s[k]
    ensures ValidChoices(choices, i) && Shuffled(s, i, choices) == t
    decreases i
  {
    if i == 0 {
      choices := [];
      FirstAgrees(s, t);
    } else {
      var j := PositionOf(s, i, t);
      var swapped := Swap(s, i, j);
      SwapDistinct(s, i, j);
      SwapMultiset(s, i, j);
      var rest := ChoicesExist(swapped, i - 1, t);
      choices := [j] + rest;
      ShuffledCons(s, i, j, rest);
    }
  }

  lemma ShuffledCons<T>(s: seq<T>, i: nat, j: nat, rest: seq<nat>)
    requires 0 < i < |s| && j <= i && ValidChoices(rest, i - 1)
    ensures ValidChoices([j] + rest, i)
    ensures Shuffled(s, i, [j] + rest) == Shuffled(Swap(s, i, j), i - 1, rest)
  {
    assert ([j] + rest)[1..] == rest;
  }

  lemma TailPart<T>(s: seq<T>, t: seq<T>, i: nat)
    requires i < |s| == |t| && multiset(s) == multiset(t) && forall k :: i < k < |s| ==> t[k] == s[k]
    ensures multiset(s[..i + 1]) == multiset(t[..i + 1])
  {
    assert s == s[..i + 1] + s[i + 1..];
    assert t == t[..i + 1] + t[i + 1..];
    assert s[i + 1..] == t[i + 1..];
    assert multiset(s) == multiset(s[..i + 1]) + multiset(s[i + 1..]);
    assert multiset(t) == multiset(t[..i + 1]) + multiset(t[i + 1..]);
    assert multiset(s[..i + 1]) == multiset(s) - multiset(s[i + 1..]);
    assert multiset(t[..i + 1]) == multiset(t) - multiset(t[i + 1..]);
  }

  lemma FirstAgrees<T>(s: seq<T>, t: seq<T>)
    requires 0 < |s| == |t| && multiset(s) == multiset(t) && forall k :: 0 < k < |s| ==> t[k] == s[k]
    ensures s == t
  {
    TailPart(s, t, 0);
    assert s[..1] == [s[0]] && t[..1] == [t[0]];
    assert s[0] in multiset(t[..1]);
  }

  lemma PositionOf<T>(s: seq<T>, i: nat, t: seq<T>) returns (j: nat)
    requires i < |s| == |t| && multiset(s) == multiset(t) && forall k :: i < k < |s| ==> t[k] == s[k]
    ensures j <= i && s[j] == t[i]
  {
    TailPart(s, t, i);
    assert t[..i + 1][i] in multiset(t[..i + 1]);
    assert t[i] in multiset(s[..i + 1]);
    j :| 0 <= j < |s[..i + 1]| && s[..i + 1][j] == t[i];
  }

  /** Each order of distinct elements results from exactly one sequence of in-range choices. */
  lemma ShuffleIsBijective<T>(s: seq<T>, last: nat, t: seq<T>) returns (choices: seq<nat>)
    requires Distinct(s) && |s| == |t| == last + 1 && multiset(s) == multiset(t)
    ensures ValidChoices(choices, last) && Shuffled(s, last, choices) == t
    ensures forall other :: ValidChoices(other, last) && Shuffled(s, last, other) == t ==> other == choices
  {
    choices := ChoicesExist(s, last, t);
    forall other | ValidChoices(other, last) && Shuffled(s, last, other) == t ensures other == choices {
      ChoicesUnique(s, last, other, choices);
    }
  }

  /** A draw that makes `Choice` pick position `j` for index `i`. */
  function DrawOf(j: nat, i: nat): (draw: real)
    requires j <= i
    ensures 0.0 <= draw < 1.0 && Choice(draw, i) == j
  {
    var draw := j as real / (i + 1) as real;
    assert draw * (i + 1) as real == j as real;
    DrawWithin(j, i);
    draw
  }

  lemma DrawWithin(j: nat, i: nat)
    requires j <= i
    ensures 0.0 <= j as real / (i + 1) as real < 1.0
  {
    var draw := j as real / (i + 1) as real;
    assert draw * (i + 1) as real == j as real;
    if draw < 0.0 || draw >= 1.0 {
      ScaledOrder(draw, (i + 1) as real);
    }
  }

  lemma ScaledOrder(draw: real, bound: real)
    requires 0.0 < bound
    ensures draw < 0.0 ==> draw * bound < 0.0
    ensures draw >= 1.0 ==> draw * bound >= bound
  {
  }

  lemma {:induction false} DrawsExist(choices: seq<nat>, i: nat) returns (draws: seq<real>)
    requires ValidChoices(choices, i)
    ensures |draws| == i && UnitInterval(draws) && Choices(draws, i) == choices
    decreases i
  {
    if i == 0 {
      draws := [];
    } else {
      var rest := DrawsExist(choices[1..], i - 1);
      draws := [DrawOf(choices[0], i)] + rest;
      assert draws[1..] == rest;
      assert choices == [choices[0]] + choices[1..];
    }
  }

  /** Every order of distinct elements is drawn by some generator values, so the result does depend on
      them. */
  lemma EveryOrderIsDrawn<T>(s: seq<T>, t: seq<T>) returns (draws: seq<real>)
    requires Distinct(s) && |s| == |t| && multiset(s) == multiset(t)
    ensures UnitInterval(draws) && |draws| + 1 >= |s| && Permutation(s, draws) == t
  {
    if s == [] {
      draws := [];
    } else {
      var choices := ShuffleIsBijective(s, |s| - 1, t);
      draws := DrawsExist(choices, |s| - 1);
    }
  }

  // ----- Draw by draw -----

  /** The array after the first `k` swaps, the k-th of which the k-th draw decides. */
  function AfterSwaps<T>(s: seq<T>, draws: seq<real>, k: nat): (r: seq<T>)
    requires UnitInterval(draws) && k <= |draws| && (k > 0 ==> k < |s|)
    ensures |r| == |s|
  {
    if k == 0 then s
    else
      var i := |s| - k;
      Swap(AfterSwaps(s, draws, k - 1), i, Choice(draws[k - 1], i))
  }

  lemma {:induction false} RemainingAfterSwaps<T>(s: seq<T>, draws: seq<real>, k: nat)
    requires UnitInterval(draws) && k < |s| && |draws| + 1 >= |s|
    ensures Remaining(AfterSwaps(s, draws, k), |s| - 1 - k, draws, k) == Permutation(s, draws)
  {
    if k == 0 {
      RemainingAll(s, draws);
    } else {
      RemainingAfterSwaps(s, draws, k - 1);
      RemainingStep(AfterSwaps(s, draws, k - 1), |s| - k, draws, k - 1);
    }
  }

  /** The k-th draw decides which of the elements not yet placed is placed last but k, and the swaps
      after that leave it there. */
  lemma DrawPlaces<T>(s: seq<T>, draws: seq<real>, k: nat)
    requires UnitInterval(draws) && k + 1 < |s| && |draws| + 1 >= |s|
    ensures
      var i := |s| - 1 - k;
      Permutation(s, draws)[i] == AfterSwaps(s, draws, k)[Choice(draws[k], i)]
  {
    RemainingAfterSwaps(s, draws, k + 1);
  }

  // ----- Transmission slots -----

  /** Milliseconds between two oracles' attempts. */
  const DELTA: int := 20000

  function Addresses(ledger: seq<OracleInfo>): (addresses: seq<Address>)
    ensures |addresses| == |ledger| && forall i :: 0 <= i < |ledger| ==> addresses[i] == ledger[i].address
  {
    seq(|ledger|, i requires 0 <= i < |ledger| => ledger[i].address)
  }

  /** `findIndex`: -1 when absent. */
  function IndexOf(s: seq<Address>, x: Address): (k: int)
    ensures -1 <= k < |s|
    ensures if k < 0 then x !in s else s[k] == x && x !in s[..k]
  {
    if s == [] then -1
    else if s[0] == x then 0
    else
      var rest := IndexOf(s[1..], x);
      assert s == [s[0]] + s[1..];
      if rest < 0 then -1
      else
        assert s[..rest + 1] == [s[0]] + s[1..][..rest];
        rest + 1
  }

  /** What the generator is seeded with. */
  datatype Seed = Seed(aggregator: Address, epoch: int, round: int)

  /** The values a seeded generator returns, call by call; the same ones for every oracle. */
  type Generator = Seed -> seq<real>

  predicate DrawsFor(rnd: Generator, seed: Seed, n: nat) {
    UnitInterval(rnd(seed)) && |rnd(seed)| + 1 >= n
  }

  function TransmitDelay(ledger: seq<OracleInfo>, me: Address, rnd: Generator, seed: Seed): int
    requires DrawsFor(rnd, seed, |ledger|)
  {
    IndexOf(Permutation(Addresses(ledger), rnd(seed)), me) * DELTA
  }

  method GetTransmitDelayMs(ledger: seq<OracleInfo>, me: Address, rnd: Generator,
                            aggregator: Address, epoch: int, round: int)
    returns (delay: int)
    requires DrawsFor(rnd, Seed(aggregator, epoch, round), |ledger|)
    ensures delay == TransmitDelay(ledger, me, rnd, Seed(aggregator, epoch, round))
  {
    var draws := rnd(Seed(aggregator, epoch, round));
    var addresses := Addresses(ledger);
    var permuted := new Address[|addresses|](i requires 0 <= i < |addresses| => addresses[i]);
    assert permuted[..] == addresses;
    RandomPermutation(permuted, draws);
    var k := IndexOf(permuted[..], me);
    delay := k * DELTA;
  }

  lemma {:induction false} DistinctMultiset<T>(s: seq<T>)
    requires Distinct(s)
    ensures forall x :: multiset(s)[x] <= 1
  {
    if s != [] {
      var last := |s| - 1;
      DistinctMultiset(s[..last]);
      assert s == s[..last] + [s[last]];
      assert s[last] !in s[..last];
    }
  }

  lemma PermutationDistinct<T>(s: seq<T>, t: seq<T>)
    requires Distinct(s) && multiset(s) == multiset(t)
    ensures Distinct(t)
  {
    DistinctMultiset(s);
    forall i, j | 0 <= i < j < |t| ensures t[i] != t[j] {
      assert t == t[..i] + [t[i]] + t[i + 1..j] + [t[j]] + t[j + 1..];
      assert multiset(s)[t[i]] <= 1;
    }
  }

  lemma SlotOf(ledger: seq<OracleInfo>, permuted: seq<Address>, oracle: OracleInfo)
    requires oracle in ledger && multiset(permuted) == multiset(Addresses(ledger))
    ensures oracle.address in permuted
  {
    var j :| 0 <= j < |ledger| && ledger[j] == oracle;
    assert Addresses(ledger)[j] in multiset(Addresses(ledger));
    assert oracle.address in multiset(permuted);
  }

  lemma OracleAt(ledger: seq<OracleInfo>, permuted: seq<Address>, k: nat) returns (oracle: OracleInfo)
    requires multiset(permuted) == multiset(Addresses(ledger)) && k < |permuted|
    ensures oracle in ledger && oracle.address == permuted[k]
  {
    assert permuted[k] in multiset(permuted);
    assert permuted[k] in multiset(Addresses(ledger));
    var i :| 0 <= i < |ledger| && Addresses(ledger)[i] == permuted[k];
    oracle := ledger[i];
  }

  lemma AddressesDistinct(ledger: seq<OracleInfo>, a: OracleInfo, b: OracleInfo)
    requires ValidLedger(ledger) && a in ledger && b in ledger && a.address == b.address
    ensures a == b
  {
    LookupsAgree(ledger, a);
    LookupsAgree(ledger, b);
  }

  /** For one aggregator, epoch and round, oracles sharing the ledger get pairwise different slots, and
      every slot 0..n-1 is taken; slots are 20 seconds apart. */
  lemma SlotSchedule(ledger: seq<OracleInfo>, rnd: Generator, seed: Seed, k: nat) returns (oracle: OracleInfo)
    requires ValidLedger(ledger) && DrawsFor(rnd, seed, |ledger|) && k < |ledger|
    ensures oracle in ledger && TransmitDelay(ledger, oracle.address, rnd, seed) == k * 20000
    ensures forall other :: other in ledger && other != oracle ==>
      TransmitDelay(ledger, other.address, rnd, seed) != k * 20000
      && 0 <= TransmitDelay(ledger, other.address, rnd, seed) <= (|ledger| - 1) * 20000
  {
    var draws := rnd(seed);
    var permuted := Permutation(Addresses(ledger), draws);
    PermutationMultiset(Addresses(ledger), draws);
    PermutationDistinct(Addresses(ledger), permuted);
    oracle := OracleAt(ledger, permuted, k);
    SlotIs(permuted, oracle.address, k);
    forall other | other in ledger && other != oracle
      ensures IndexOf(permuted, other.address) >= 0 && IndexOf(permuted, other.address) != k
    {
      SlotOf(ledger, permuted, other);
      if other.address == oracle.address {
        AddressesDistinct(ledger, other, oracle);
      }
    }
  }

  lemma SlotIs(permuted: seq<Address>, x: Address, k: nat)
    requires Distinct(permuted) && k < |permuted| && permuted[k] == x
    ensures IndexOf(permuted, x) == k
  {
    assert permuted[k] in permuted;
  }

  /** An oracle outside the ledger gets a negative delay, so it would transmit at once. */
  lemma OutsiderDelay(ledger: seq<OracleInfo>, me: Address, rnd: Generator, seed: Seed)
    requires DrawsFor(rnd, seed, |ledger|)
    ensures (forall oracle :: oracle in ledger ==> oracle.address != me) <==>
            TransmitDelay(ledger, me, rnd, seed) == -DELTA
  {
    var draws := rnd(seed);
    var addresses := Addresses(ledger);
    var permuted := Permutation(addresses, draws);
    PermutationMultiset(addresses, draws);
    assert me in multiset(permuted) <==> me in multiset(addresses);
    if me in addresses {
      var i :| 0 <= i < |addresses| && addresses[i] == me;
      assert ledger[i] in ledger;
    }
    forall oracle | oracle in ledger && oracle.address == me ensures me in addresses {
      var i :| 0 <= i < |ledger| && ledger[i] == oracle;
      assert addresses[i] == me;
    }
  }
}
