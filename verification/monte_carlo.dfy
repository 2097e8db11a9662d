/**
 The seeded Lehmer generator and the bootstrap simulation that draws trade gains with it. The generator's
 state is an integer; every product stays below 2^53, so the program's floating-point arithmetic on it is exact.
 */
module MonteCarlo {
  import opened Options
  import opened JsNumbers
  import opened Sums
  import opened MathHelpers

  const MODULUS := 2147483647
  const MULTIPLIER := 16807
  const INVERSE := 1407677000

  /** JavaScript's %: the remainder takes the dividend's sign. */
  function TruncatedRemainder(x: int, m: nat): int
    requires m > 0
  {
    if x >= 0 then x % m else -(-x % m)
  }

  function InitialState(seed: int): int {
    var state := TruncatedRemainder(seed, MODULUS);
    if state <= 0 then state + (MODULUS - 1) else state
  }

  function NextState(state: int): int
  {
    TruncatedRemainder(state * MULTIPLIER, MODULUS)
  }

  function StateAfter(seed: int, draws: nat): int {
    if draws == 0 then InitialState(seed) else NextState(StateAfter(seed, draws - 1))
  }

  function Power(base: nat, n: nat): nat {
    if n == 0 then 1 else Power(base, n - 1) * base
  }

  lemma RemainderTimes(x: nat, y: nat, m: nat)
    requires m > 0
    ensures (x % m) * y % m == x * y % m
  {
    var q := x / m;
    assert x == q * m + x % m;
    assert x * y == (q * y) * m + (x % m) * y;
    DivModUnique((x % m) * y, m, (x % m) * y / m, (x % m) * y % m);
    DivModUnique(x * y, m, q * y + (x % m) * y / m, (x % m) * y % m);
  }

  /** A seed starts the generator at its remainder, a multiple of the modulus or a negative seed counted back from the largest state. */
  lemma StartsAt(seed: int)
    ensures InitialState(seed) ==
            if seed < 0 then 2147483646 - -seed % 2147483647
            else if seed % 2147483647 == 0 then 2147483646
            else seed % 2147483647
  {
  }

  lemma StateStep(seed: int, draws: nat, product: nat)
    requires StateAfter(seed, draws) == product % MODULUS
    ensures StateAfter(seed, draws + 1) == product * MULTIPLIER % MODULUS
  {
    RemainderTimes(product, MULTIPLIER, MODULUS);
  }

  lemma PowerStep(x: nat, base: nat, n: nat)
    ensures x * Power(base, n + 1) == x * Power(base, n) * base
  {
    Regroup(x, Power(base, n), base);
  }

  lemma Regroup(x: nat, y: nat, z: nat)
    ensures x * (y * z) == x * y * z
  {
  }

  /** The state after n draws in closed form: the initial state times 16807 to the n, modulo 2147483647. */
  lemma {:induction false} StateClosed(seed: int, draws: nat)
    requires 1 <= InitialState(seed) <= 2147483646
    ensures StateAfter(seed, draws) == InitialState(seed) * Power(16807, draws) % 2147483647
  {
    if draws > 0 {
      StateClosed(seed, draws - 1);
      StateStep(seed, draws - 1, InitialState(seed) * Power(16807, draws - 1));
      PowerStep(InitialState(seed), 16807, draws - 1);
    }
  }

  predicate InRange(state: int) {
    1 <= state <= MODULUS - 1
  }

  /** The step is a bijection of 1..2^31-2: it stays in range and multiplying by INVERSE undoes it; products fit a double. */
  lemma StepInRange(state: int)
    requires InRange(state)
    ensures InRange(NextState(state)) && 0 < state * MULTIPLIER < 0x20_0000_0000_0000
    ensures (NextState(state) * INVERSE) % MODULUS == state
  {
    var p := state * MULTIPLIER;
    var q, r := p / MODULUS, p % MODULUS;
    assert p == MODULUS * q + r;
    var k := (MULTIPLIER * INVERSE - 1) / MODULUS;
    assert MULTIPLIER * INVERSE == MODULUS * k + 1;
    assert p * INVERSE == state * (MULTIPLIER * INVERSE) == MODULUS * (state * k) + state;
    assert r * INVERSE == MODULUS * (state * k - q * INVERSE) + state;
    DivModUnique(r * INVERSE, MODULUS, state * k - q * INVERSE, state);
  }

  /** Every state of the range has a predecessor in it. */
  lemma StepIsOnto(state: int) returns (before: int)
    requires InRange(state)
    ensures InRange(before) && NextState(before) == state
  {
    var p := state * INVERSE;
    before := p % MODULUS;
    var q := p / MODULUS;
    assert p == MODULUS * q + before;
    var k := (MULTIPLIER * INVERSE - 1) / MODULUS;
    assert MULTIPLIER * INVERSE == MODULUS * k + 1;
    assert p * MULTIPLIER == state * (MULTIPLIER * INVERSE) == MODULUS * (state * k) + state;
    assert before * MULTIPLIER == MODULUS * (state * k - q * MULTIPLIER) + state;
    DivModUnique(before * MULTIPLIER, MODULUS, state * k - q * MULTIPLIER, state);
  }

  predicate SafeSeed(seed: int) {
    TruncatedRemainder(seed, MODULUS) != -(MODULUS - 1)
  }

  lemma {:induction false} StatesInRange(seed: int, draws: nat)
    requires SafeSeed(seed)
    ensures InRange(StateAfter(seed, draws))
  {
    if draws > 0 {
      StatesInRange(seed, draws - 1);
      StepInRange(StateAfter(seed, draws - 1));
    }
  }

  lemma {:induction false} UnsafeSeedSticks(seed: int, draws: nat)
    requires !SafeSeed(seed)
    ensures StateAfter(seed, draws) == 0
  {
    if draws > 0 {
      UnsafeSeedSticks(seed, draws - 1);
    }
  }

  /** What the generator returns in a state. */
  function Draw(state: int): real {
    (state - 1) as real / (MODULUS - 1) as real
  }

  /** Math.floor(rng() * length) for the generator's current state. */
  function IndexOf(state: int, length: nat): int {
    Scale(Draw(state), length as real).Floor
  }

  lemma IndexInRange(state: int, length: nat)
    requires InRange(state) && length > 0
    ensures 0 <= IndexOf(state, length) < length
  {
    ScaleUnit(Draw(state), length as real);
  }

  lemma ScaleUnit(u: real, n: real)
    requires n > 0.0
    ensures 0.0 <= u < 1.0 ==> 0.0 <= Scale(u, n) < n
    ensures u < 0.0 ==> Scale(u, n) < 0.0
  {
    if 0.0 <= u < 1.0 {
      assert n - u * n == (1.0 - u) * n;
    }
  }

  lemma IndexBelowRange(length: nat)
    requires length > 0
    ensures IndexOf(0, length) < 0
  {
    ScaleUnit(Draw(0), length as real);
  }

  /**
   A seed draws valid indices forever exactly when its truncated remainder is not -(2^31 - 2); the one bad
   remainder gives state 0, which maps to itself, and every index drawn is negative.
   */
  lemma SafeSeedExactly(seed: int, length: nat)
    requires length > 0
    ensures SafeSeed(seed) <==> forall draws: nat :: 0 <= IndexOf(StateAfter(seed, draws), length) < length
    ensures SafeSeed(seed) <==> forall draws: nat :: InRange(StateAfter(seed, draws))
  {
    if SafeSeed(seed) {
      forall draws: nat
        ensures InRange(StateAfter(seed, draws)) && 0 <= IndexOf(StateAfter(seed, draws), length) < length
      {
        StatesInRange(seed, draws);
        IndexInRange(StateAfter(seed, draws), length);
      }
    } else {
      UnsafeSeedSticks(seed, 0);
      IndexBelowRange(length);
      assert !InRange(StateAfter(seed, 0)) && IndexOf(StateAfter(seed, 0), length) < 0;
    }
  }

  /** The closure createRandom returns, with the state it mutates. */
  class Random {
    var state: int
    ghost const seed: int
    ghost var draws: nat

    ghost predicate Valid()
      reads this
    {
      state == StateAfter(seed, draws)
    }

    constructor (seed: int)
      ensures Valid() && this.seed == seed && draws == 0
    {
      state := InitialState(seed);
      this.seed := seed;
      draws := 0;
    }

    /** Advances the state and returns (state - 1) / (2^31 - 2). */
    method Next() returns (u: real)
      requires Valid()
      modifies this
      ensures Valid() && draws == old(draws) + 1
      ensures u == Draw(StateAfter(seed, draws))
    {
      state := NextState(state);
      draws := draws + 1;
      u := (state - 1) as real / (MODULUS - 1) as real;
    }
  }

  // ---- The simulation ----

  datatype Report = Report(
    iterations: int,
    sampleSize: int,
    meanCumulativeReturnPct: real,
    percentile5ReturnPct: real,
    percentile95ReturnPct: real,
    worstRunPct: real,
    bestRunPct: real)

  function ReturnsOf(trades: seq<Option<real>>): (r: seq<real>)
    ensures |r| == |trades| && forall i :: 0 <= i < |r| ==> r[i] == if trades[i].Some? then trades[i].value else 0.0
  {
    seq(|trades|, i requires 0 <= i < |trades| => trades[i].GetOr(0.0))
  }

  /** The returns that draws first + 1, ..., first + size pick. */
  function Sample(gains: seq<real>, seed: int, first: nat, size: nat): (r: seq<real>)
    requires gains != [] && SafeSeed(seed)
    ensures |r| == size
    ensures forall j :: 0 <= j < size ==> r[j] in gains
  {
    if size == 0 then []
    else
      StatesInRange(seed, first + size);
      IndexInRange(StateAfter(seed, first + size), |gains|);
      Sample(gains, seed, first, size - 1) + [gains[IndexOf(StateAfter(seed, first + size), |gains|)]]
  }

  /** The cumulative return of each run, run i continuing the generator where run i - 1 left it. */
  function Runs(gains: seq<real>, seed: int, iterations: nat, size: nat): (r: seq<real>)
    requires gains != [] && SafeSeed(seed)
    ensures |r| == iterations
  {
    if iterations == 0 then []
    else Runs(gains, seed, iterations - 1, size) + [Sum(Sample(gains, seed, (iterations - 1) * size, size))]
  }

  function Least(xs: seq<real>): real
    requires xs != []
  {
    if |xs| == 1 then xs[0] else MinReal(Least(xs[..|xs| - 1]), xs[|xs| - 1])
  }

  function Greatest(xs: seq<real>): real
    requires xs != []
  {
    if |xs| == 1 then xs[0] else MaxReal(Greatest(xs[..|xs| - 1]), xs[|xs| - 1])
  }

  function Percent(x: real): real {
    ToFixed(Scale(x, 100.0), 3)
  }

  function Summarize(results: seq<real>, sampleSize: int): Report
    requires results != []
  {
    Report(|results|, sampleSize, Percent(Mean(results)), Percent(Percentile(results, 0.05)),
           Percent(Percentile(results, 0.95)), Percent(Least(results)), Percent(Greatest(results)))
  }

  function Positive(option: int, default: nat): nat {
    if option != 0 then Max(1, option) else default
  }

  lemma SampleStep(gains: seq<real>, seed: int, first: nat, j: nat)
    requires gains != [] && SafeSeed(seed)
    ensures 0 <= IndexOf(StateAfter(seed, first + j + 1), |gains|) < |gains|
    ensures Sum(Sample(gains, seed, first, j + 1)) ==
            Sum(Sample(gains, seed, first, j)) + gains[IndexOf(StateAfter(seed, first + j + 1), |gains|)]
  {
    StatesInRange(seed, first + j + 1);
    IndexInRange(StateAfter(seed, first + j + 1), |gains|);
    var before := Sample(gains, seed, first, j);
    assert first + (j + 1) == first + j + 1;
    assert Sample(gains, seed, first, j + 1)[..j] == before;
  }

  /** One run: the inner loop. */
  method SimulateRun(gains: seq<real>, rng: Random, sampleSize: nat) returns (cumulative: real)
    requires gains != [] && SafeSeed(rng.seed) && rng.Valid()
    modifies rng
    ensures rng.Valid() && rng.draws == old(rng.draws) + sampleSize
    ensures cumulative == Sum(Sample(gains, rng.seed, old(rng.draws), sampleSize))
  {
    cumulative := 0.0;
    ghost var first := rng.draws;
    for j := 0 to sampleSize
      invariant cumulative == Sum(Sample(gains, rng.seed, first, j))
      invariant rng.Valid() && rng.draws == first + j
    {
      SampleStep(gains, rng.seed, first, j);
      var u := rng.Next();
      var index := Scale(u, |gains| as real).Floor;
      cumulative := cumulative + gains[index];
    }
  }

  method RunMonteCarloSimulations(trades: seq<Option<real>>, iterationsOption: int, sampleSizeOption: int, seedOption: int, now: int)
      returns (report: Report)
    requires trades != [] ==> SafeSeed(if seedOption != 0 then seedOption else now)
    ensures trades == [] ==> report == Report(0, 0, 0.0, 0.0, 0.0, 0.0, 0.0)
    ensures trades != [] ==>
      var size := Positive(sampleSizeOption, |trades|);
      report == Summarize(Runs(ReturnsOf(trades), if seedOption != 0 then seedOption else now,
                               Positive(iterationsOption, 500), size), size)
    ensures trades != [] ==>
      && report.iterations == (if iterationsOption == 0 then 500 else if iterationsOption < 1 then 1 else iterationsOption)
      && report.sampleSize == (if sampleSizeOption == 0 then |trades| else if sampleSizeOption < 1 then 1 else sampleSizeOption)
  {
    var gains := ReturnsOf(trades);
    if |gains| == 0 {
      return Report(0, 0, 0.0, 0.0, 0.0, 0.0, 0.0);
    }
    var iterations := Positive(iterationsOption, 500);
    var sampleSize := Positive(sampleSizeOption, |gains|);
    var seed := if seedOption != 0 then seedOption else now;
    var rng := new Random(seed);
    var cumulativeResults: seq<real> := [];
    for i := 0 to iterations
      invariant cumulativeResults == Runs(gains, seed, i, sampleSize)
      invariant rng.Valid() && rng.seed == seed && rng.draws == i * sampleSize
    {
      var cumulative := SimulateRun(gains, rng, sampleSize);
      cumulativeResults := cumulativeResults + [cumulative];
      Successor(i, sampleSize);
    }
    report := Summarize(cumulativeResults, sampleSize);
  }

  lemma Successor(i: nat, n: nat)
    ensures (i + 1) * n == i * n + n
  {
  }

  lemma {:induction false} ExtremesBound(xs: seq<real>)
    requires xs != []
    ensures forall i :: 0 <= i < |xs| ==> Least(xs) <= xs[i] <= Greatest(xs)
    ensures Least(xs) in xs && Greatest(xs) in xs
  {
    if |xs| > 1 {
      ExtremesBound(xs[..|xs| - 1]);
      assert forall x :: x in xs[..|xs| - 1] ==> x in xs;
    }
  }

  lemma MeanBetween(xs: seq<real>)
    requires xs != []
    ensures Least(xs) <= Mean(xs) <= Greatest(xs)
  {
    ExtremesBound(xs);
    SumBounds(xs, Least(xs), Greatest(xs));
    QuotientBetween(Sum(xs), |xs| as real, Least(xs), Greatest(xs));
  }

  lemma PercentMonotone(x: real, y: real)
    requires x <= y
    ensures Percent(x) <= Percent(y)
  {
    ScaleMonotone(x, y, 100.0);
    ToFixedMonotone(Scale(x, 100.0), Scale(y, 100.0), 3);
  }

  /** Worst run, 5th percentile, 95th percentile and best run come in order, with the mean between the ends, after rounding too. */
  lemma ReportOrdered(results: seq<real>, sampleSize: int)
    requires results != []
    ensures var r := Summarize(results, sampleSize);
      && r.worstRunPct <= r.percentile5ReturnPct <= r.percentile95ReturnPct <= r.bestRunPct
      && r.worstRunPct <= r.meanCumulativeReturnPct <= r.bestRunPct
  {
    ExtremesBound(results);
    MeanBetween(results);
    PercentileMonotone(results, 0.05, 0.95);
    PercentileMonotone(results, 0.95, 0.95);
    PercentMonotone(Least(results), Percentile(results, 0.05));
    PercentMonotone(Percentile(results, 0.05), Percentile(results, 0.95));
    PercentMonotone(Percentile(results, 0.95), Greatest(results));
    PercentMonotone(Least(results), Mean(results));
    PercentMonotone(Mean(results), Greatest(results));
  }

  /** Between size times the smallest and size times the largest trade return. */
  ghost predicate InBand(gains: seq<real>, size: nat, total: real)
    requires gains != []
  {
    Scale(size as real, Least(gains)) <= total <= Scale(size as real, Greatest(gains))
  }

  lemma {:induction false} SampleAt(gains: seq<real>, seed: int, first: nat, size: nat, j: nat)
    requires gains != [] && SafeSeed(seed) && j < size
    ensures var u := (StateAfter(seed, first + j + 1) - 1) as real / 2147483646.0;
      0 <= Scale(u, |gains| as real).Floor < |gains|
      && Sample(gains, seed, first, size)[j] == gains[Scale(u, |gains| as real).Floor]
  {
    if j == size - 1 {
      StatesInRange(seed, first + size);
      IndexInRange(StateAfter(seed, first + size), |gains|);
    } else {
      SampleAt(gains, seed, first, size - 1, j);
    }
  }

  /** Run i adds up what draws i * size + 1 to (i + 1) * size pick: each run goes on where the one before it stopped. */
  lemma {:induction false} RunsContinue(gains: seq<real>, seed: int, iterations: nat, size: nat, i: nat)
    requires gains != [] && SafeSeed(seed) && i < iterations
    ensures Runs(gains, seed, iterations, size)[i] == Sum(Sample(gains, seed, i * size, size))
  {
    if i < iterations - 1 {
      RunsContinue(gains, seed, iterations - 1, size, i);
    }
  }

  lemma RunBounded(gains: seq<real>, seed: int, first: nat, size: nat)
    requires gains != [] && SafeSeed(seed)
    ensures InBand(gains, size, Sum(Sample(gains, seed, first, size)))
  {
    ExtremesBound(gains);
    SumBounds(Sample(gains, seed, first, size), Least(gains), Greatest(gains));
  }

  lemma {:induction false} RunsBounded(gains: seq<real>, seed: int, iterations: nat, size: nat)
    requires gains != [] && SafeSeed(seed)
    ensures forall total :: total in Runs(gains, seed, iterations, size) ==> InBand(gains, size, total)
  {
    if iterations > 0 {
      RunsBounded(gains, seed, iterations - 1, size);
      RunBounded(gains, seed, (iterations - 1) * size, size);
    }
  }

  /** So the reported extremes are bounded by the sample size and the extreme trade returns. */
  lemma ReportBounded(gains: seq<real>, seed: int, iterations: nat, size: nat)
    requires gains != [] && SafeSeed(seed) && iterations > 0
    ensures var r := Summarize(Runs(gains, seed, iterations, size), size);
      Percent(Scale(size as real, Least(gains))) <= r.worstRunPct && r.bestRunPct <= Percent(Scale(size as real, Greatest(gains)))
  {
    var runs := Runs(gains, seed, iterations, size);
    RunsBounded(gains, seed, iterations, size);
    ExtremesBound(runs);
    assert InBand(gains, size, Least(runs)) && InBand(gains, size, Greatest(runs));
    PercentMonotone(Scale(size as real, Least(gains)), Least(runs));
    PercentMonotone(Greatest(runs), Scale(size as real, Greatest(gains)));
  }

  /** No run is smaller, or none greater. */
  predicate IsExtreme(results: seq<real>, i: nat, least: bool)
    requires i < |results|
  {
    forall j :: 0 <= j < |results| ==> if least then results[i] <= results[j] else results[j] <= results[i]
  }

  /** At most the given share of the runs lies below run i, and more than that share at or below it. */
  predicate Splits(results: seq<real>, i: nat, share: real)
    requires i < |results|
  {
    CountOf(results, Below(results[i])) as real <= Scale(share, |results| as real) < CountOf(results, UpTo(results[i])) as real
  }

  lemma SplitAt(results: seq<real>, share: real) returns (i: nat)
    requires results != [] && 0.0 <= share < 1.0
    ensures i < |results| && Splits(results, i, share) && Near(Percent(Percentile(results, share)), results[i])
  {
    PercentileSplits(results, share);
    PercentNear(Percentile(results, share));
    i :| 0 <= i < |results| && results[i] == Percentile(results, share);
  }

  /** The reported figure is so many percent, within half its last digit. */
  predicate Near(reported: real, x: real) {
    Abs(reported - 100.0 * x) <= 0.0005
  }

  lemma PercentNear(x: real)
    ensures Near(Percent(x), x)
  {
    assert Pow10(1) == 10.0 && Pow10(2) == 100.0 && Pow10(3) == 1000.0;
    ToFixedError(Scale(x, 100.0), 3);
  }

  /** The report gives the number of runs, their mean, a worst and a best run, and the runs that split off 5 and 95 percent. */
  lemma ReportMeaning(results: seq<real>, sampleSize: int) returns (worst: nat, best: nat, low: nat, high: nat)
    requires results != []
    ensures worst < |results| && best < |results| && low < |results| && high < |results|
    ensures IsExtreme(results, worst, true) && IsExtreme(results, best, false) && Splits(results, low, 0.05) && Splits(results, high, 0.95)
    ensures var r := Summarize(results, sampleSize);
      && r.iterations == |results| && r.sampleSize == sampleSize && Near(r.meanCumulativeReturnPct, Sum(results) / |results| as real)
      && Near(r.worstRunPct, results[worst]) && Near(r.bestRunPct, results[best])
      && Near(r.percentile5ReturnPct, results[low]) && Near(r.percentile95ReturnPct, results[high])
  {
    ExtremesBound(results);
    PercentNear(Mean(results));
    PercentNear(Least(results));
    PercentNear(Greatest(results));
    worst :| 0 <= worst < |results| && results[worst] == Least(results);
    best :| 0 <= best < |results| && results[best] == Greatest(results);
    low := SplitAt(results, 0.05);
    high := SplitAt(results, 0.95);
  }
}
