/** Optional values: JavaScript's undefined or null where the code allows a missing field. */
module Options {
  datatype Option<+T> = None | Some(value: T) {
    function GetOr(default: T): T {
      if Some? then value else default
    }
  }
}

/**
 JavaScript number helpers over mathematical reals: Math.round, and the toFixedNumber rounding used by
 every report of the backtesting engine.
 */
module JsNumbers {

  function Max(x: int, y: int): int {
    if x < y then y else x
  }

  function Min(x: int, y: int): int {
    if x < y then x else y
  }

  function MaxReal(x: real, y: real): real {
    if x < y then y else x
  }

  function MinReal(x: real, y: real): real {
    if x < y then x else y
  }

  function Abs(x: real): real {
    if x < 0.0 then -x else x
  }

  /** Quotient and remainder are determined by their defining equation. */
  lemma DivModUnique(x: int, n: nat, q: int, r: int)
    requires n > 0 && x == n * q + r && 0 <= r < n
    ensures x / n == q && x % n == r
  {
    var q', r' := x / n, x % n;
    assert x == n * q' + r';
    assert n * (q - q') == r' - r;
    if q > q' {
      MultipleAtLeast(n, q - q');
    } else if q < q' {
      assert n * (q' - q) == r - r';
      MultipleAtLeast(n, q' - q);
    }
  }

  lemma MultipleAtLeast(n: nat, k: int)
    requires k >= 1
    ensures n * k >= n
  {
    assert n * k == n * (k - 1) + n;
  }

  /** Math.round: ties go up. */
  function Round(x: real): int {
    (x + 0.5).Floor
  }

  /** The nearest integer, the upper one of two as near. */
  lemma RoundExactly(x: real, n: int)
    ensures Round(x) == n <==> n as real - 0.5 <= x < n as real + 0.5
  {
  }

  lemma RoundMonotone(x: real, y: real)
    requires x <= y
    ensures Round(x) <= Round(y)
  {
  }

  function Pow10(decimals: nat): (p: real)
    ensures p >= 1.0
  {
    if decimals == 0 then 1.0 else 10.0 * Pow10(decimals - 1)
  }

  /** toFixedNumber on a finite value. */
  function ToFixed(value: real, decimals: nat): real {
    RoundTo(value, Pow10(decimals))
  }

  function Ratio(n: int, factor: real): real
    requires factor >= 1.0
  {
    n as real / factor
  }

  function Scale(value: real, factor: real): real {
    value * factor
  }

  function RoundTo(value: real, factor: real): real
    requires factor >= 1.0
  {
    Ratio(Round(Scale(value, factor)), factor)
  }

  /** The value lies on the grid of multiples of 10^-decimals. */
  ghost predicate OnGrid(value: real, decimals: nat) {
    exists n: int :: GridPoint(n, decimals) == value
  }

  ghost function GridPoint(n: int, decimals: nat): real {
    Ratio(n, Pow10(decimals))
  }


  lemma DivideMonotone(x: real, y: real, p: real)
    requires p > 0.0 && x <= y
    ensures x / p <= y / p
  {
    assert y / p - x / p == (y - x) / p;
  }

  lemma MultiplyMonotone(x: real, y: real, p: real)
    requires p >= 0.0 && x <= y
    ensures x * p <= y * p
  {
    assert y * p - x * p == (y - x) * p;
  }

  lemma RatioAboveOne(x: real, y: real)
    requires y > 0.0
    ensures x / y > 1.0 <==> x > y
  {
    var q := x / y;
    assert q * y == x;
    assert (q - 1.0) * y == x - y;
  }

  lemma NearQuotient(value: real, n: real, scaled: real, factor: real)
    requires factor > 0.0 && scaled == value * factor && -0.5 <= n - scaled <= 0.5
    ensures Abs(n / factor - value) <= 0.5 / factor
  {
    assert value == scaled / factor;
    assert n / factor - scaled / factor == (n - scaled) / factor;
    DivideMonotone(-0.5, n - scaled, factor);
    DivideMonotone(n - scaled, 0.5, factor);
    assert -0.5 / factor == -(0.5 / factor);
  }

  lemma RoundToError(value: real, factor: real) returns (n: int)
    requires factor >= 1.0
    ensures Abs(RoundTo(value, factor) - value) <= 0.5 / factor
    ensures RoundTo(value, factor) == Ratio(n, factor)
  {
    n := Round(Scale(value, factor));
    NearQuotient(value, n as real, Scale(value, factor), factor);
  }

  /** Rounding moves a value by at most half a unit in the last kept place, and lands on the grid. */
  lemma ToFixedError(value: real, decimals: nat)
    ensures Abs(ToFixed(value, decimals) - value) <= 0.5 / Pow10(decimals)
    ensures OnGrid(ToFixed(value, decimals), decimals)
  {
    var n := RoundToError(value, Pow10(decimals));
    assert GridPoint(n, decimals) == ToFixed(value, decimals);
  }

  lemma ScaleMonotone(x: real, y: real, factor: real)
    requires factor >= 0.0 && x <= y
    ensures Scale(x, factor) <= Scale(y, factor)
  {
    MultiplyMonotone(x, y, factor);
  }

  /** A value is rounded to a grid point exactly from half a unit below it to less than half a unit above it. */
  lemma ToFixedExactly(value: real, decimals: nat, n: int)
    ensures ToFixed(value, decimals) == Ratio(n, Pow10(decimals)) <==>
            n as real - 0.5 <= Scale(value, Pow10(decimals)) < n as real + 0.5
  {
    var m := Round(Scale(value, Pow10(decimals)));
    RoundExactly(Scale(value, Pow10(decimals)), n);
    ScaleRatio(n, Pow10(decimals));
    ScaleRatio(m, Pow10(decimals));
  }

  lemma RoundToMonotone(x: real, y: real, factor: real)
    requires factor >= 1.0 && x <= y
    ensures RoundTo(x, factor) <= RoundTo(y, factor)
  {
    var u, v := Scale(x, factor), Scale(y, factor);
    MultiplyMonotone(x, y, factor);
    RoundMonotone(u, v);
    DivideMonotone(Round(u) as real, Round(v) as real, factor);
  }

  lemma ToFixedMonotone(x: real, y: real, decimals: nat)
    requires x <= y
    ensures ToFixed(x, decimals) <= ToFixed(y, decimals)
  {
    RoundToMonotone(x, y, Pow10(decimals));
  }

  lemma ScaleRatio(n: int, factor: real)
    requires factor >= 1.0
    ensures Scale(Ratio(n, factor), factor) == n as real
  {
  }

  lemma RoundOfInteger(n: int)
    ensures Round(n as real) == n
  {
  }

  lemma RoundToRatio(n: int, factor: real)
    requires factor >= 1.0
    ensures RoundTo(Ratio(n, factor), factor) == Ratio(n, factor)
  {
    ScaleRatio(n, factor);
    RoundOfInteger(n);
  }

  /** Values already on the grid are left alone, and only those: rounding is a projection onto the grid. */
  lemma ToFixedIdempotent(value: real, decimals: nat)
    ensures OnGrid(value, decimals) <==> ToFixed(value, decimals) == value
  {
    if OnGrid(value, decimals) {
      var n: int :| GridPoint(n, decimals) == value;
      RoundToRatio(n, Pow10(decimals));
    }
    ToFixedError(value, decimals);
  }

  lemma RatioSum(m: int, n: int, factor: real)
    requires factor >= 1.0
    ensures Ratio(m + n, factor) == Ratio(m, factor) + Ratio(n, factor)
  {
  }

  /** Sums of grid values stay on the grid. */
  lemma GridClosed(x: real, y: real, decimals: nat)
    requires OnGrid(x, decimals) && OnGrid(y, decimals)
    ensures OnGrid(x + y, decimals)
  {
    var m: int :| GridPoint(m, decimals) == x;
    var n: int :| GridPoint(n, decimals) == y;
    RatioSum(m, n, Pow10(decimals));
    assert GridPoint(m + n, decimals) == x + y;
  }
}

/** Sums of real sequences, accumulated left to right as the loops of the program do. */
module Sums {
  import opened JsNumbers

  function Sum(xs: seq<real>): real {
    if xs == [] then 0.0 else Sum(xs[..|xs| - 1]) + xs[|xs| - 1]
  }

  lemma SumSnoc(xs: seq<real>, i: nat)
    requires i < |xs|
    ensures Sum(xs[..i + 1]) == Sum(xs[..i]) + xs[i]
  {
    assert xs[..i + 1][..i] == xs[..i];
  }

  lemma {:induction false} SumConcat(xs: seq<real>, ys: seq<real>)
    ensures Sum(xs + ys) == Sum(xs) + Sum(ys)
    decreases |ys|
  {
    if ys == [] {
      assert xs + ys == xs;
    } else {
      var n := |ys| - 1;
      assert (xs + ys)[..|xs + ys| - 1] == xs + ys[..n];
      SumConcat(xs, ys[..n]);
    }
  }

  /** A sum of n values lies between n times a lower bound and n times an upper bound. */
  lemma {:induction false} SumBounds(xs: seq<real>, lo: real, hi: real)
    requires forall i :: 0 <= i < |xs| ==> lo <= xs[i] <= hi
    ensures Scale(|xs| as real, lo) <= Sum(xs) <= Scale(|xs| as real, hi)
  {
    if xs != [] {
      var n := |xs| - 1;
      SumBounds(xs[..n], lo, hi);
      ScaleSuccessor(n as real, lo);
      ScaleSuccessor(n as real, hi);
    }
  }

  lemma ScaleSuccessor(n: real, x: real)
    ensures Scale(n + 1.0, x) == Scale(n, x) + x
  {
  }

  /** An average lies between the bounds of what is averaged. */
  lemma QuotientBetween(total: real, n: real, lo: real, hi: real)
    requires n > 0.0 && Scale(n, lo) <= total <= Scale(n, hi)
    ensures lo <= total / n <= hi
  {
    DivideMonotone(Scale(n, lo), total, n);
    DivideMonotone(total, Scale(n, hi), n);
    assert Scale(n, lo) / n == lo && Scale(n, hi) / n == hi;
  }
}
