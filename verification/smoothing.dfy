/** The closed form of exponential smoothing: every value with its own geometrically fading weight. */
module Smoothing {
  import opened JsNumbers

  function Power(x: real, n: nat): real {
    if n == 0 then 1.0 else Scale(Power(x, n - 1), x)
  }

  /** Values blended in one after the other, each with weight a. */
  function Smoothed(seed: real, xs: seq<real>, a: real): real {
    if xs == [] then seed
    else
      var n := |xs| - 1;
      Step(Smoothed(seed, xs[..n], a), xs[n], a)
  }

  function Step(before: real, x: real, a: real): real {
    (x - before) * a + before
  }

  /** What a value still weighs after m more of them. */
  function Weighed(x: real, a: real, m: nat): real {
    Scale(Power(1.0 - a, m), Scale(a, x))
  }

  /** The first k of the values, each weighed by a and by 1 - a for every value after it. */
  function Faded(xs: seq<real>, a: real, k: nat): real
    requires k <= |xs|
  {
    if k == 0 then 0.0 else Faded(xs, a, k - 1) + Weighed(xs[k - 1], a, |xs| - k)
  }

  function ClosedForm(seed: real, xs: seq<real>, a: real): real {
    Scale(Power(1.0 - a, |xs|), seed) + Faded(xs, a, |xs|)
  }

  lemma FadesOnce(p: real, r: real, x: real)
    ensures Scale(Scale(p, r), x) == Scale(r, Scale(p, x))
  {
  }

  lemma ScaleAdds(r: real, x: real, y: real)
    ensures Scale(r, x + y) == Scale(r, x) + Scale(r, y)
  {
  }

  lemma WeighedFades(x: real, a: real, m: nat)
    ensures Weighed(x, a, m + 1) == Scale(1.0 - a, Weighed(x, a, m))
  {
    FadesOnce(Power(1.0 - a, m), 1.0 - a, Scale(a, x));
  }

  lemma {:induction false} FadedAfter(xs: seq<real>, ys: seq<real>, a: real, k: nat)
    requires k <= |xs| && |ys| == |xs| + 1 && ys[..|xs|] == xs
    ensures Faded(ys, a, k) == Scale(1.0 - a, Faded(xs, a, k))
  {
    if k == 0 {
      assert Scale(1.0 - a, 0.0) == 0.0;
    } else {
      FadedAfter(xs, ys, a, k - 1);
      assert ys[k - 1] == ys[..|xs|][k - 1];
      WeighedFades(xs[k - 1], a, |xs| - k);
      ScaleAdds(1.0 - a, Faded(xs, a, k - 1), Weighed(xs[k - 1], a, |xs| - k));
    }
  }

  lemma StepFades(before: real, x: real, a: real)
    ensures Step(before, x, a) == Scale(1.0 - a, before) + Scale(1.0, Scale(a, x))
  {
    assert (1.0 - a) * before == before - a * before;
  }

  lemma ClosedFormNext(seed: real, xs: seq<real>, ys: seq<real>, a: real)
    requires |ys| == |xs| + 1 && ys[..|xs|] == xs
    ensures ClosedForm(seed, ys, a) == Step(ClosedForm(seed, xs, a), ys[|xs|], a)
  {
    var n, r := |xs|, 1.0 - a;
    FadedAfter(xs, ys, a, n);
    FadesOnce(Power(r, n), r, seed);
    ScaleAdds(r, Scale(Power(r, n), seed), Faded(xs, a, n));
    StepFades(ClosedForm(seed, xs, a), ys[n], a);
  }

  /** One more value of a longer list is one more step. */
  lemma SmoothedNext(seed: real, xs: seq<real>, a: real, from: nat, to: nat)
    requires from <= to < |xs|
    ensures Smoothed(seed, xs[from..to + 1], a) == Step(Smoothed(seed, xs[from..to], a), xs[to], a)
  {
    assert xs[from..to + 1][..to - from] == xs[from..to];
  }

  /** Blending step by step is the closed form. */
  lemma {:induction false} SmoothedClosed(seed: real, xs: seq<real>, a: real)
    ensures Smoothed(seed, xs, a) == ClosedForm(seed, xs, a)
  {
    if xs == [] {
      assert Scale(1.0, seed) == seed;
    } else {
      SmoothedClosed(seed, xs[..|xs| - 1], a);
      ClosedFormNext(seed, xs[..|xs| - 1], xs, a);
    }
  }
}
