/** The two least-squares fits: centred sums over arbitrary points, and raw sums over 0, 1, 2, ... */
module Regression {
  import opened JsNumbers

  datatype Fit = Fit(slope: real, intercept: real, rSquared: real)

  function Product(x: real, y: real): real {
    x * y
  }

  /** Sums of x, y, x*x, x*y and y*y over the first n points. */
  datatype Moments = Moments(n: real, x: real, y: real, xx: real, xy: real, yy: real)

  function MomentsOf(xs: seq<real>, ys: seq<real>, n: nat): Moments
    requires n <= |xs| && n <= |ys|
  {
    if n == 0 then Moments(0.0, 0.0, 0.0, 0.0, 0.0, 0.0)
    else
      AddPoint(MomentsOf(xs, ys, n - 1), xs[n - 1], ys[n - 1])
  }

  function AddPoint(m: Moments, x: real, y: real): Moments {
    Moments(m.n + 1.0, m.x + x, m.y + y, m.xx + Product(x, x), m.xy + Product(x, y), m.yy + Product(y, y))
  }

  function Square(x: real): real {
    x * x
  }

  function SquaredError(x: real, y: real, a: real, b: real): real {
    Square(y - (a * x + b))
  }

  /** The squared vertical distances of the first n points from the line a * x + b. */
  function Residual(xs: seq<real>, ys: seq<real>, a: real, b: real, n: nat): real
    requires n <= |xs| && n <= |ys|
  {
    if n == 0 then 0.0
    else Residual(xs, ys, a, b, n - 1) + SquaredError(xs[n - 1], ys[n - 1], a, b)
  }

  /** The residual as a polynomial in the line's coefficients. */
  function Expanded(m: Moments, a: real, b: real): real {
    m.yy - 2.0 * a * m.xy - 2.0 * b * m.y + a * a * m.xx + 2.0 * a * b * m.x + b * b * m.n
  }

  lemma PointExpands(x: real, y: real, a: real, b: real)
    ensures SquaredError(x, y, a, b) ==
            Product(y, y) - 2.0 * a * Product(x, y) - 2.0 * b * y + a * a * Product(x, x) + 2.0 * a * b * x + b * b
  {
    var p := a * x;
    assert Square(y - (p + b)) == y * y - 2.0 * (y * p) - 2.0 * (y * b) + p * p + 2.0 * (p * b) + b * b;
    assert y * p == a * (x * y);
    assert p * p == a * a * (x * x);
    assert p * b == a * b * x;
  }

  lemma ExpandedAdds(m: Moments, x: real, y: real, xx: real, xy: real, yy: real, a: real, b: real)
    ensures Expanded(Moments(m.n + 1.0, m.x + x, m.y + y, m.xx + xx, m.xy + xy, m.yy + yy), a, b) ==
            Expanded(m, a, b) + (yy - 2.0 * a * xy - 2.0 * b * y + a * a * xx + 2.0 * a * b * x + b * b)
  {
  }

  lemma ExpandedPoint(m: Moments, x: real, y: real, a: real, b: real)
    ensures Expanded(AddPoint(m, x, y), a, b) == Expanded(m, a, b) + SquaredError(x, y, a, b)
  {
    PointExpands(x, y, a, b);
    ExpandedAdds(m, x, y, Product(x, x), Product(x, y), Product(y, y), a, b);
  }

  lemma {:induction false} ResidualExpands(xs: seq<real>, ys: seq<real>, a: real, b: real, n: nat)
    requires n <= |xs| && n <= |ys|
    ensures Residual(xs, ys, a, b, n) == Expanded(MomentsOf(xs, ys, n), a, b)
  {
    if n > 0 {
      ResidualExpands(xs, ys, a, b, n - 1);
      ExpandedPoint(MomentsOf(xs, ys, n - 1), xs[n - 1], ys[n - 1], a, b);
    }
  }

  // ---- The centred fit ----

  /** Sum of (x - cx) * (y - cy) over the first n points. */
  function Cross(xs: seq<real>, ys: seq<real>, cx: real, cy: real, n: nat): real
    requires n <= |xs| && n <= |ys|
  {
    if n == 0 then 0.0 else Cross(xs, ys, cx, cy, n - 1) + Product(xs[n - 1] - cx, ys[n - 1] - cy)
  }

  function MeanOf(xs: seq<real>): real
    requires xs != []
  {
    MomentsOf(xs, xs, |xs|).x / |xs| as real
  }

  function SlopeOf(numerator: real, denominator: real): real {
    if denominator == 0.0 then 0.0 else numerator / denominator
  }

  function RSquared(total: real, residual: real): real {
    if total == 0.0 then 0.0 else 1.0 - residual / total
  }

  function Slope(xs: seq<real>, ys: seq<real>): real
    requires |xs| == |ys| > 0
  {
    SlopeOf(Cross(xs, ys, MeanOf(xs), MeanOf(ys), |xs|), Cross(xs, xs, MeanOf(xs), MeanOf(xs), |xs|))
  }

  function Intercept(xs: seq<real>, ys: seq<real>): real
    requires |xs| == |ys| > 0
  {
    MeanOf(ys) - Product(Slope(xs, ys), MeanOf(xs))
  }

  function TotalVariation(ys: seq<real>): real
    requires ys != []
  {
    Cross(ys, ys, MeanOf(ys), MeanOf(ys), |ys|)
  }

  function FitResidual(xs: seq<real>, ys: seq<real>): real
    requires |xs| == |ys| > 0
  {
    Residual(xs, ys, Slope(xs, ys), Intercept(xs, ys), |xs|)
  }

  function FitOf(xs: seq<real>, ys: seq<real>): Fit {
    if |xs| != |ys| || |xs| == 0 then Fit(0.0, 0.0, 0.0)
    else Fit(Slope(xs, ys), Intercept(xs, ys), RSquared(TotalVariation(ys), FitResidual(xs, ys)))
  }

  lemma {:induction false} MomentsFirst(xs: seq<real>, ys: seq<real>, n: nat)
    requires n <= |xs| && n <= |ys|
    ensures MomentsOf(xs, ys, n).x == MomentsOf(xs, xs, n).x
    ensures MomentsOf(xs, ys, n).y == MomentsOf(ys, ys, n).x
    ensures MomentsOf(xs, ys, n).n == n as real
  {
    if n > 0 {
      MomentsFirst(xs, ys, n - 1);
    }
  }

  method LinearRegression(xs: seq<real>, ys: seq<real>) returns (fit: Fit)
    ensures fit == FitOf(xs, ys)
    ensures |xs| != |ys| || xs == [] ==> fit == Fit(0.0, 0.0, 0.0)
  {
    if |xs| != |ys| || |xs| == 0 {
      return Fit(0.0, 0.0, 0.0);
    }
    var meanX, meanY := MeanOf(xs), MeanOf(ys);
    var numerator, denominator := 0.0, 0.0;
    for i := 0 to |xs|
      invariant numerator == Cross(xs, ys, meanX, meanY, i) && denominator == Cross(xs, xs, meanX, meanX, i)
    {
      var xDiff := xs[i] - meanX;
      numerator := numerator + Product(xDiff, ys[i] - meanY);
      denominator := denominator + Product(xDiff, xDiff);
    }
    var slope := SlopeOf(numerator, denominator);
    var intercept := meanY - Product(slope, meanX);
    var ssTot, ssRes := 0.0, 0.0;
    for i := 0 to |xs|
      invariant ssTot == Cross(ys, ys, meanY, meanY, i) && ssRes == Residual(xs, ys, slope, intercept, i)
    {
      ssTot := ssTot + Product(ys[i] - meanY, ys[i] - meanY);
      ssRes := ssRes + SquaredError(xs[i], ys[i], slope, intercept);
    }
    fit := Fit(slope, intercept, RSquared(ssTot, ssRes));
  }

  // ---- It is truly least squares ----

  lemma CrossPoint(x: real, y: real, cx: real, cy: real)
    ensures Product(x - cx, y - cy) == Product(x, y) - cy * x - cx * y + cx * cy
  {
  }

  function CrossExpanded(xy: real, x: real, y: real, n: real, cx: real, cy: real): real {
    xy - cy * x - cx * y + n * (cx * cy)
  }

  lemma CrossAdds(m: Moments, x: real, y: real, cx: real, cy: real)
    ensures CrossExpanded(m.xy + Product(x, y), m.x + x, m.y + y, m.n + 1.0, cx, cy) ==
            CrossExpanded(m.xy, m.x, m.y, m.n, cx, cy) + Product(x - cx, y - cy)
  {
    CrossPoint(x, y, cx, cy);
    var c := cx * cy;
    assert (m.n + 1.0) * c == m.n * c + c;
  }

  lemma {:induction false} CrossIsExpanded(xs: seq<real>, ys: seq<real>, cx: real, cy: real, n: nat)
    requires n <= |xs| && n <= |ys|
    ensures var m := MomentsOf(xs, ys, n);
      Cross(xs, ys, cx, cy, n) == CrossExpanded(m.xy, m.x, m.y, m.n, cx, cy)
  {
    if n > 0 {
      CrossIsExpanded(xs, ys, cx, cy, n - 1);
      CrossAdds(MomentsOf(xs, ys, n - 1), xs[n - 1], ys[n - 1], cx, cy);
    }
  }

  lemma {:induction false} MomentSquares(xs: seq<real>, ys: seq<real>, n: nat)
    requires n <= |xs| && n <= |ys|
    ensures MomentsOf(xs, ys, n).xx == MomentsOf(xs, xs, n).xy
    ensures MomentsOf(xs, ys, n).yy == MomentsOf(ys, ys, n).xy
  {
    if n > 0 {
      MomentSquares(xs, ys, n - 1);
    }
  }

  lemma {:induction false} ResidualNonNegative(xs: seq<real>, ys: seq<real>, a: real, b: real, n: nat)
    requires n <= |xs| && n <= |ys|
    ensures Residual(xs, ys, a, b, n) >= 0.0
  {
    if n > 0 {
      ResidualNonNegative(xs, ys, a, b, n - 1);
      SquareSign(ys[n - 1] - (a * xs[n - 1] + b));
    }
  }

  lemma SquareSign(x: real)
    ensures Square(x) >= 0.0
  {
  }

  /** The residual split into the line's offset at the centre and its slope's misfit. */
  function Split(n: real, sxy: real, sxx: real, syy: real, mx: real, my: real, a: real, b: real): real {
    n * Square(b + a * mx - my) + Misfit(sxy, sxx, syy, a)
  }

  function Misfit(sxy: real, sxx: real, syy: real, a: real): real {
    syy - 2.0 * a * sxy + Square(a) * sxx
  }

  function Central(xy: real, n: real, mx: real, my: real): real {
    xy - n * mx * my
  }

  lemma ExpandedSplits(m: Moments, mx: real, my: real, a: real, b: real)
    requires m.x == Product(m.n, mx) && m.y == Product(m.n, my)
    ensures Expanded(m, a, b) ==
            Split(m.n, Central(m.xy, m.n, mx, my), Central(m.xx, m.n, mx, mx), Central(m.yy, m.n, my, my), mx, my, a, b)
  {
    var n := m.n;
    var u := a * mx;
    assert Square(b + u - my) == b * b + u * u + my * my + 2.0 * (b * u) - 2.0 * (b * my) - 2.0 * (u * my);
    assert u * u == a * a * (mx * mx);
    assert b * u == a * b * mx;
    assert u * my == a * (mx * my);
    assert n * Square(b + u - my) ==
      n * (b * b) + a * a * (n * (mx * mx)) + n * (my * my) + 2.0 * (a * b * (n * mx)) - 2.0 * (b * (n * my)) - 2.0 * (a * (n * (mx * my)));
  }

  /** Completing the square: no slope has a smaller misfit than the chosen one. */
  lemma MisfitLeast(sxy: real, sxx: real, syy: real, a: real)
    requires sxx >= 0.0 && (sxx == 0.0 ==> sxy == 0.0)
    ensures Misfit(sxy, sxx, syy, SlopeOf(sxy, sxx)) <= Misfit(sxy, sxx, syy, a)
  {
    if sxx > 0.0 {
      var a0 := sxy / sxx;
      assert a0 * sxx == sxy;
      var d := a - a0;
      assert Square(a) == Square(a0) + 2.0 * (a0 * d) + Square(d);
      assert Square(a) * sxx == Square(a0) * sxx + 2.0 * (a0 * sxx) * d + Square(d) * sxx;
      assert Misfit(sxy, sxx, syy, a) - Misfit(sxy, sxx, syy, a0) == Square(d) * sxx;
      SquareSign(d);
      assert Square(d) * sxx >= 0.0;
    }
  }

  lemma MisfitWithoutSpread(sxy: real, syy: real, a: real)
    ensures Misfit(sxy, 0.0, syy, a) == syy - a * (2.0 * sxy)
  {
  }

  /** If every misfit is nonnegative, points without horizontal spread have no covariance either. */
  lemma NoSpreadNoCovariance(sxy: real, syy: real)
    requires forall a :: Misfit(sxy, 0.0, syy, a) >= 0.0
    ensures sxy == 0.0
  {
    if sxy != 0.0 {
      var a := (syy + 1.0) / (2.0 * sxy);
      assert a * (2.0 * sxy) == syy + 1.0;
      MisfitWithoutSpread(sxy, syy, a);
    }
  }

  lemma MeanTimes(xs: seq<real>)
    requires xs != []
    ensures MomentsOf(xs, xs, |xs|).x == Product(|xs| as real, MeanOf(xs))
  {
    QuotientTimes(MomentsOf(xs, xs, |xs|).x, |xs| as real);
  }

  lemma QuotientTimes(x: real, n: real)
    requires n != 0.0
    ensures Product(n, x / n) == x
  {
  }

  lemma CentreIsMean(xy: real, n: real, mx: real, my: real)
    ensures CrossExpanded(xy, Product(n, mx), Product(n, my), n, mx, my) == Central(xy, n, mx, my)
  {
  }

  /** The centred sums are the raw ones less n times the product of the means. */
  lemma CrossCentral(xs: seq<real>, ys: seq<real>)
    requires |xs| == |ys| > 0
    ensures Cross(xs, ys, MeanOf(xs), MeanOf(ys), |xs|) ==
            Central(MomentsOf(xs, ys, |xs|).xy, |xs| as real, MeanOf(xs), MeanOf(ys))
  {
    MomentsFirst(xs, ys, |xs|);
    MeanTimes(xs);
    MeanTimes(ys);
    CrossIsExpanded(xs, ys, MeanOf(xs), MeanOf(ys), |xs|);
    CentreIsMean(MomentsOf(xs, ys, |xs|).xy, |xs| as real, MeanOf(xs), MeanOf(ys));
  }

  /** Every line's residual is n times its squared offset at the centre plus its slope's misfit. */
  lemma ResidualSplits(xs: seq<real>, ys: seq<real>, a: real, b: real)
    requires |xs| == |ys| > 0
    ensures var mx, my := MeanOf(xs), MeanOf(ys);
      Residual(xs, ys, a, b, |xs|) ==
      Split(|xs| as real, Cross(xs, ys, mx, my, |xs|), Cross(xs, xs, mx, mx, |xs|), Cross(ys, ys, my, my, |xs|), mx, my, a, b)
  {
    var m := MomentsOf(xs, ys, |xs|);
    ResidualExpands(xs, ys, a, b, |xs|);
    MomentsFirst(xs, ys, |xs|);
    MomentSquares(xs, ys, |xs|);
    MeanTimes(xs);
    MeanTimes(ys);
    CrossCentral(xs, ys);
    CrossCentral(xs, xs);
    CrossCentral(ys, ys);
    ExpandedSplits(m, MeanOf(xs), MeanOf(ys), a, b);
  }

  lemma {:induction false} SpreadNonNegative(xs: seq<real>, c: real, n: nat)
    requires n <= |xs|
    ensures Cross(xs, xs, c, c, n) >= 0.0
  {
    if n > 0 {
      SpreadNonNegative(xs, c, n - 1);
      SquareSign(xs[n - 1] - c);
      assert Product(xs[n - 1] - c, xs[n - 1] - c) == Square(xs[n - 1] - c);
    }
  }

  lemma ThroughCentre(n: real, sxy: real, sxx: real, syy: real, mx: real, my: real, a: real)
    ensures Split(n, sxy, sxx, syy, mx, my, a, my - Product(a, mx)) == Misfit(sxy, sxx, syy, a)
  {
    assert my - Product(a, mx) + a * mx - my == 0.0;
  }

  lemma OffCentre(n: real, sxy: real, sxx: real, syy: real, mx: real, my: real, a: real, b: real)
    requires n > 0.0
    ensures Split(n, sxy, sxx, syy, mx, my, a, b) >= Misfit(sxy, sxx, syy, a)
  {
    SquareSign(b + a * mx - my);
    assert n * Square(b + a * mx - my) >= 0.0;
  }

  /**
   The fit is truly least squares: no line has a smaller residual, whatever the points, even when they share
   one x and the slope falls back to zero.
   */
  lemma LeastSquares(xs: seq<real>, ys: seq<real>, a: real, b: real)
    requires |xs| == |ys| > 0
    ensures FitResidual(xs, ys) <= Residual(xs, ys, a, b, |xs|)
  {
    var n, mx, my := |xs| as real, MeanOf(xs), MeanOf(ys);
    var sxy, sxx, syy := Cross(xs, ys, mx, my, |xs|), Cross(xs, xs, mx, mx, |xs|), Cross(ys, ys, my, my, |xs|);
    SpreadNonNegative(xs, mx, |xs|);
    forall slope
      ensures Misfit(sxy, sxx, syy, slope) >= 0.0
    {
      MisfitIsResidual(xs, ys, slope);
    }
    if sxx == 0.0 {
      NoSpreadNoCovariance(sxy, syy);
    }
    MisfitLeast(sxy, sxx, syy, a);
    ResidualSplits(xs, ys, a, b);
    OffCentre(n, sxy, sxx, syy, mx, my, a, b);
    MisfitIsResidual(xs, ys, Slope(xs, ys));
  }

  lemma MisfitIsResidual(xs: seq<real>, ys: seq<real>, slope: real)
    requires |xs| == |ys| > 0
    ensures var mx, my := MeanOf(xs), MeanOf(ys);
      var misfit := Misfit(Cross(xs, ys, mx, my, |xs|), Cross(xs, xs, mx, mx, |xs|), Cross(ys, ys, my, my, |xs|), slope);
      misfit >= 0.0 && misfit == Residual(xs, ys, slope, my - Product(slope, mx), |xs|)
  {
    var mx, my := MeanOf(xs), MeanOf(ys);
    ResidualSplits(xs, ys, slope, my - Product(slope, mx));
    ThroughCentre(|xs| as real, Cross(xs, ys, mx, my, |xs|), Cross(xs, xs, mx, mx, |xs|), Cross(ys, ys, my, my, |xs|), mx, my, slope);
    ResidualNonNegative(xs, ys, slope, my - Product(slope, mx), |xs|);
  }

  /** So R squared is a proportion. */
  lemma RSquaredInRange(xs: seq<real>, ys: seq<real>)
    requires |xs| == |ys| > 0
    ensures 0.0 <= FitOf(xs, ys).rSquared <= 1.0
  {
    var mx, my := MeanOf(xs), MeanOf(ys);
    LeastSquares(xs, ys, 0.0, my - Product(0.0, mx));
    MisfitIsResidual(xs, ys, 0.0);
    ResidualNonNegative(xs, ys, Slope(xs, ys), Intercept(xs, ys), |xs|);
    SpreadNonNegative(ys, my, |ys|);
    assert Misfit(Cross(xs, ys, mx, my, |xs|), Cross(xs, xs, mx, mx, |xs|), Cross(ys, ys, my, my, |xs|), 0.0) == TotalVariation(ys);
    if TotalVariation(ys) > 0.0 {
      QuotientOfParts(FitResidual(xs, ys), TotalVariation(ys));
    }
  }

  lemma QuotientOfParts(part: real, whole: real)
    requires 0.0 <= part <= whole && whole > 0.0
    ensures 0.0 <= 1.0 - part / whole <= 1.0
  {
    DivideMonotone(0.0, part, whole);
    DivideMonotone(part, whole, whole);
    assert whole / whole == 1.0;
  }

  // ---- What R squared measures ----

  /** The squared distances of the line's first n values from c. */
  function Explained(xs: seq<real>, a: real, b: real, c: real, n: nat): real
    requires n <= |xs|
  {
    if n == 0 then 0.0 else Explained(xs, a, b, c, n - 1) + Square(a * xs[n - 1] + b - c)
  }

  lemma {:induction false} ExplainedBySlope(xs: seq<real>, a: real, b: real, c: real, mx: real, n: nat)
    requires n <= |xs| && b - c == -Product(a, mx)
    ensures Explained(xs, a, b, c, n) == Square(a) * Cross(xs, xs, mx, mx, n)
  {
    if n > 0 {
      ExplainedBySlope(xs, a, b, c, mx, n - 1);
      SlopePoint(xs[n - 1], a, b, c, mx, Cross(xs, xs, mx, mx, n - 1));
    }
  }

  lemma SlopePoint(x: real, a: real, b: real, c: real, mx: real, before: real)
    requires b - c == -Product(a, mx)
    ensures Square(a) * before + Square(a * x + b - c) == Square(a) * (before + Product(x - mx, x - mx))
  {
    var d := x - mx;
    assert a * x + b - c == a * d;
    assert Square(a * d) == Square(a) * (d * d);
  }

  lemma SlopeBalance(sxy: real, sxx: real, syy: real)
    requires sxx == 0.0 ==> sxy == 0.0
    ensures var a := SlopeOf(sxy, sxx); syy - Misfit(sxy, sxx, syy, a) == Square(a) * sxx
  {
    var a := SlopeOf(sxy, sxx);
    assert a * sxx == sxy;
    assert Square(a) * sxx == a * (a * sxx);
  }

  lemma NoSpreadNoSlope(xs: seq<real>, ys: seq<real>)
    requires |xs| == |ys| > 0 && Cross(xs, xs, MeanOf(xs), MeanOf(xs), |xs|) == 0.0
    ensures Cross(xs, ys, MeanOf(xs), MeanOf(ys), |xs|) == 0.0
  {
    var sxy, syy := Cross(xs, ys, MeanOf(xs), MeanOf(ys), |xs|), Cross(ys, ys, MeanOf(ys), MeanOf(ys), |ys|);
    forall slope
      ensures Misfit(sxy, 0.0, syy, slope) >= 0.0
    {
      MisfitIsResidual(xs, ys, slope);
    }
    NoSpreadNoCovariance(sxy, syy);
  }

  /** The variation of y splits into what the line explains and what it leaves. */
  lemma VariationSplits(xs: seq<real>, ys: seq<real>)
    requires |xs| == |ys| > 0
    ensures TotalVariation(ys) == Explained(xs, Slope(xs, ys), Intercept(xs, ys), MeanOf(ys), |xs|) + FitResidual(xs, ys)
  {
    var mx, my := MeanOf(xs), MeanOf(ys);
    var sxy, sxx, syy := Cross(xs, ys, mx, my, |xs|), Cross(xs, xs, mx, mx, |xs|), Cross(ys, ys, my, my, |ys|);
    if sxx == 0.0 {
      NoSpreadNoSlope(xs, ys);
    }
    MisfitIsResidual(xs, ys, Slope(xs, ys));
    SlopeBalance(sxy, sxx, syy);
    ExplainedBySlope(xs, Slope(xs, ys), Intercept(xs, ys), my, mx, |xs|);
  }

  lemma {:induction false} ExplainedNonNegative(xs: seq<real>, a: real, b: real, c: real, n: nat)
    requires n <= |xs|
    ensures Explained(xs, a, b, c, n) >= 0.0
  {
    if n > 0 {
      ExplainedNonNegative(xs, a, b, c, n - 1);
      SquareSign(a * xs[n - 1] + b - c);
    }
  }

  /** R squared is the share of y's variation the line explains. */
  lemma RSquaredIsShare(xs: seq<real>, ys: seq<real>)
    requires |xs| == |ys| > 0
    ensures Product(FitOf(xs, ys).rSquared, TotalVariation(ys)) ==
            Explained(xs, Slope(xs, ys), Intercept(xs, ys), MeanOf(ys), |xs|)
  {
    var total, left := TotalVariation(ys), FitResidual(xs, ys);
    VariationSplits(xs, ys);
    ExplainedNonNegative(xs, Slope(xs, ys), Intercept(xs, ys), MeanOf(ys), |xs|);
    ResidualNonNegative(xs, ys, Slope(xs, ys), Intercept(xs, ys), |xs|);
    if total != 0.0 {
      ShareOf(total, left);
    }
  }

  lemma ShareOf(total: real, left: real)
    requires total != 0.0
    ensures Product(1.0 - left / total, total) == total - left
  {
    assert left / total * total == left;
  }

  lemma {:induction false} ResidualZero(xs: seq<real>, ys: seq<real>, a: real, b: real, n: nat)
    requires n <= |xs| && n <= |ys|
    ensures Residual(xs, ys, a, b, n) == 0.0 <==> forall i :: 0 <= i < n ==> ys[i] == a * xs[i] + b
  {
    if n > 0 {
      ResidualZero(xs, ys, a, b, n - 1);
      ResidualNonNegative(xs, ys, a, b, n - 1);
      SquareZero(ys[n - 1] - (a * xs[n - 1] + b));
    }
  }

  lemma SquareZero(x: real)
    ensures Square(x) >= 0.0 && (Square(x) == 0.0 <==> x == 0.0)
  {
    if x > 0.0 {
      PositiveSquare(x);
    } else if x < 0.0 {
      PositiveSquare(-x);
      SquareOfNegated(x);
    } else {
      assert Square(0.0) == 0.0;
    }
  }

  lemma PositiveSquare(x: real)
    requires x > 0.0
    ensures Square(x) > 0.0
  {
    PositiveProduct(x, x);
    assert Square(x) == Product(x, x);
  }

  lemma PositiveProduct(x: real, y: real)
    requires x > 0.0 && y > 0.0
    ensures Product(x, y) > 0.0
  {
  }

  lemma SquareOfNegated(x: real)
    ensures Square(-x) == Square(x)
  {
    assert (-x) * (-x) == x * x;
  }

  lemma {:induction false} SpreadZero(ys: seq<real>, c: real, n: nat)
    requires n <= |ys|
    ensures Cross(ys, ys, c, c, n) == 0.0 <==> forall i :: 0 <= i < n ==> ys[i] == c
  {
    if n > 0 {
      SpreadZero(ys, c, n - 1);
      SpreadNonNegative(ys, c, n - 1);
      SquareZero(ys[n - 1] - c);
      assert Product(ys[n - 1] - c, ys[n - 1] - c) == Square(ys[n - 1] - c);
    }
  }

  lemma {:induction false} SumOfEqual(ys: seq<real>, c: real, n: nat)
    requires n <= |ys| && forall i :: 0 <= i < n ==> ys[i] == c
    ensures MomentsOf(ys, ys, n).x == Product(n as real, c)
  {
    if n > 0 {
      SumOfEqual(ys, c, n - 1);
      assert Product((n - 1) as real, c) + c == Product(n as real, c);
    }
  }

  lemma VariesExactly(ys: seq<real>)
    requires ys != []
    ensures TotalVariation(ys) != 0.0 <==> exists i :: 0 <= i < |ys| && ys[i] != ys[0]
  {
    SpreadZero(ys, MeanOf(ys), |ys|);
    if forall i :: 0 <= i < |ys| ==> ys[i] == ys[0] {
      SumOfEqual(ys, ys[0], |ys|);
      MeanTimes(ys);
      SameFactor(|ys| as real, MeanOf(ys), ys[0]);
    }
  }

  lemma SameFactor(n: real, x: real, y: real)
    requires n != 0.0 && Product(n, x) == Product(n, y)
    ensures x == y
  {
  }

  ghost predicate OnLine(xs: seq<real>, ys: seq<real>, a: real, b: real)
    requires |xs| == |ys|
  {
    forall i :: 0 <= i < |xs| ==> ys[i] == a * xs[i] + b
  }

  /** It is 1 exactly when the points lie on one line and are not all level. */
  lemma PerfectFitExactly(xs: seq<real>, ys: seq<real>)
    requires |xs| == |ys| > 0
    ensures FitOf(xs, ys).rSquared == 1.0 <==>
            (exists i :: 0 <= i < |ys| && ys[i] != ys[0]) && (exists a, b :: OnLine(xs, ys, a, b))
  {
    VariesExactly(ys);
    ResidualZero(xs, ys, Slope(xs, ys), Intercept(xs, ys), |xs|);
    var total, left := TotalVariation(ys), FitResidual(xs, ys);
    if left == 0.0 {
      assert OnLine(xs, ys, Slope(xs, ys), Intercept(xs, ys));
    }
    if exists a, b :: OnLine(xs, ys, a, b) {
      var a, b :| OnLine(xs, ys, a, b);
      ResidualZero(xs, ys, a, b, |xs|);
      LeastSquares(xs, ys, a, b);
      ResidualNonNegative(xs, ys, Slope(xs, ys), Intercept(xs, ys), |xs|);
    }
    if total != 0.0 {
      ShareOf(total, left);
    }
  }

  predicate Level(ys: seq<real>) {
    forall i :: 0 <= i < |ys| ==> ys[i] == ys[0]
  }

  lemma LevelVariation(ys: seq<real>)
    requires ys != []
    ensures TotalVariation(ys) == 0.0 <==> Level(ys)
  {
    VariesExactly(ys);
  }

  /** Points above one another are fitted by the level line through their mean, and level points leave nothing to explain. */
  lemma DegenerateFit(xs: seq<real>, ys: seq<real>)
    requires |xs| == |ys| > 0
    ensures Level(xs) ==> FitOf(xs, ys).slope == 0.0 && Product(FitOf(xs, ys).intercept, |ys| as real) == MomentsOf(ys, ys, |ys|).x
    ensures Level(ys) ==> FitOf(xs, ys).rSquared == 0.0
  {
    LevelVariation(ys);
    if Level(xs) {
      LevelVariation(xs);
      MeanTimes(ys);
      assert Product(0.0, MeanOf(xs)) == 0.0;
    }
  }

  // ---- The raw-sums fit over 0, 1, 2, ... ----

  function Indices(m: nat): (xs: seq<real>)
    ensures |xs| == m
  {
    seq(m, i => i as real)
  }

  /** The window computeRegression fits: the last maxPoints values, or all of them. */
  function Recent(values: seq<real>, maxPoints: int): seq<real> {
    values[|values| - Max(0, Min(maxPoints, |values|))..]
  }

  function Spread(n: real, x: real, xx: real): real {
    Product(n, xx) - Product(x, x)
  }

  function RawDenominator(m: Moments): real {
    Spread(m.n, m.x, m.xx)
  }

  function Clamp(x: real, low: real, high: real): real {
    MaxReal(low, MinReal(high, x))
  }

  datatype RawFit = NoFit | RawFit(slope: real, r2: real)

  /** The first loop: sums over the points (0, y[0]), (1, y[1]), ... */
  method RawSums(y: seq<real>) returns (sumX: real, sumY: real, sumXY: real, sumXX: real)
    ensures var s := MomentsOf(Indices(|y|), y, |y|);
      sumX == s.x && sumY == s.y && sumXY == s.xy && sumXX == s.xx
  {
    sumX, sumY, sumXY, sumXX := 0.0, 0.0, 0.0, 0.0;
    for i := 0 to |y|
      invariant var s := MomentsOf(Indices(|y|), y, i); sumX == s.x && sumY == s.y && sumXY == s.xy && sumXX == s.xx
    {
      sumX := sumX + i as real;
      sumY := sumY + y[i];
      sumXY := sumXY + Product(i as real, y[i]);
      sumXX := sumXX + Product(i as real, i as real);
    }
  }

  /** The second loop: squares about the mean and about the line. */
  method RawSquares(y: seq<real>, meanY: real, slope: real, intercept: real) returns (ssTot: real, ssRes: real)
    ensures ssTot == Cross(y, y, meanY, meanY, |y|) && ssRes == Residual(Indices(|y|), y, slope, intercept, |y|)
  {
    ssTot, ssRes := 0.0, 0.0;
    for i := 0 to |y|
      invariant ssTot == Cross(y, y, meanY, meanY, i) && ssRes == Residual(Indices(|y|), y, slope, intercept, i)
    {
      ssTot := ssTot + Product(y[i] - meanY, y[i] - meanY);
      ssRes := ssRes + SquaredError(i as real, y[i], slope, intercept);
    }
  }

  method ComputeRegression(values: seq<real>, maxPoints: int) returns (r: RawFit)
    ensures r.NoFit? <==> |values| < 8 || maxPoints < 2
    ensures r.RawFit? ==>
      var y := Recent(values, maxPoints);
      && |y| == (if maxPoints < |values| then maxPoints else |values|) && values[..|values| - |y|] + y == values
      && r.slope == FitOf(Indices(|y|), y).slope && r.r2 == FitOf(Indices(|y|), y).rSquared
  {
    if |values| < 8 {
      return NoFit;
    }
    var y := Recent(values, maxPoints);
    var m := |y|;
    var sumX, sumY, sumXY, sumXX := RawSums(y);
    MomentsFirst(Indices(m), y, m);
    var denom := Spread(m as real, sumX, sumXX);
    DenominatorSign(y);
    if denom == 0.0 {
      return NoFit;
    }
    RawSlopeIsCentred(y);
    var slope := (Product(m as real, sumXY) - Product(sumX, sumY)) / denom;
    var meanY := sumY / m as real;
    var intercept := meanY - Product(slope, sumX) / m as real;
    RawIntercept(y, slope, sumX);
    var ssTot, ssRes := RawSquares(y, meanY, slope, intercept);
    ClampChangesNothing(y);
    var r2 := if ssTot > 0.0 then Clamp(1.0 - ssRes / ssTot, 0.0, 1.0) else 0.0;
    r := RawFit(slope, r2);
  }

  /** The clamp of R squared to 0..1 is never needed, and a zero total is the only one without a quotient. */
  lemma ClampChangesNothing(y: seq<real>)
    requires y != []
    ensures var total, residual := TotalVariation(y), FitResidual(Indices(|y|), y);
      RSquared(total, residual) == if total > 0.0 then Clamp(1.0 - residual / total, 0.0, 1.0) else 0.0
  {
    SpreadNonNegative(y, MeanOf(y), |y|);
    RSquaredInRange(Indices(|y|), y);
  }

  /** Twice the sum and six times the sum of squares of 0, 1, ..., r - 1. */
  function IndexTotal(r: real): real {
    r * (r - 1.0)
  }

  function SquareTotal(r: real): real {
    r * (r - 1.0) * (2.0 * r - 1.0)
  }

  function ClosedForm(r: real): real {
    r * r * (r - 1.0) * (r + 1.0)
  }

  lemma IndexStep(r: real, x: real, xx: real)
    requires 2.0 * x == IndexTotal(r) && 6.0 * xx == SquareTotal(r)
    ensures 2.0 * (x + r) == IndexTotal(r + 1.0)
    ensures 6.0 * (xx + Product(r, r)) == SquareTotal(r + 1.0)
  {
  }

  lemma {:induction false} IndexSums(y: seq<real>, n: nat)
    requires n <= |y|
    ensures var m := MomentsOf(Indices(|y|), y, n);
      2.0 * m.x == IndexTotal(n as real) && 6.0 * m.xx == SquareTotal(n as real)
  {
    if n > 0 {
      var r := (n - 1) as real;
      IndexSums(y, n - 1);
      var before := MomentsOf(Indices(|y|), y, n - 1);
      IndexStep(r, before.x, before.xx);
      assert n as real == r + 1.0 && Indices(|y|)[n - 1] == r;
    }
  }

  lemma DenominatorClosed(n: real, x: real, xx: real)
    requires 2.0 * x == IndexTotal(n) && 6.0 * xx == SquareTotal(n)
    ensures 12.0 * (Product(n, xx) - Product(x, x)) == ClosedForm(n)
  {
    var p := IndexTotal(n);
    assert 12.0 * Product(n, xx) == 2.0 * n * (p * (2.0 * n - 1.0));
    assert 4.0 * Product(x, x) == p * p;
    assert 2.0 * n * (p * (2.0 * n - 1.0)) - 3.0 * (p * p) == p * (2.0 * n * (2.0 * n - 1.0) - 3.0 * p);
    assert 2.0 * n * (2.0 * n - 1.0) - 3.0 * p == n * (n + 1.0);
    assert p * (n * (n + 1.0)) == ClosedForm(n);
  }

  lemma ClosedSign(r: real)
    ensures r >= 2.0 ==> ClosedForm(r) > 0.0
    ensures r == 0.0 || r == 1.0 ==> ClosedForm(r) == 0.0
  {
    if r >= 2.0 {
      assert r * r > 0.0;
      assert r * r * (r - 1.0) > 0.0;
    }
  }

  lemma SignFromTotals(n: nat, x: real, xx: real)
    requires 2.0 * x == IndexTotal(n as real) && 6.0 * xx == SquareTotal(n as real)
    ensures n >= 2 ==> Spread(n as real, x, xx) > 0.0
    ensures n < 2 ==> Spread(n as real, x, xx) == 0.0
  {
    DenominatorClosed(n as real, x, xx);
    ClosedSign(n as real);
    assert n < 2 ==> n as real == 0.0 || n as real == 1.0;
  }

  /** For 0, 1, ..., m - 1 the denominator is m^2 (m^2 - 1) / 12: positive exactly from two points on. */
  lemma DenominatorSign(y: seq<real>)
    ensures var d := RawDenominator(MomentsOf(Indices(|y|), y, |y|));
      (|y| >= 2 ==> d > 0.0) && (|y| < 2 ==> d == 0.0)
  {
    var m := MomentsOf(Indices(|y|), y, |y|);
    IndexSums(y, |y|);
    MomentsFirst(Indices(|y|), y, |y|);
    SignFromTotals(|y|, m.x, m.xx);
    assert RawDenominator(m) == Spread(|y| as real, m.x, m.xx);
  }

  lemma CentralTimes(n: real, xy: real, mx: real, my: real)
    ensures Product(n, xy) - Product(Product(n, mx), Product(n, my)) == n * Central(xy, n, mx, my)
  {
  }

  lemma CancelFactor(n: real, p: real, q: real)
    requires n != 0.0 && n * q != 0.0
    ensures n * p / (n * q) == p / q
  {
    var z := p / q;
    assert z * q == p;
    assert z * (n * q) == n * p;
  }

  /** The raw-sums slope is the centred slope. */
  lemma RawSlopeIsCentred(y: seq<real>)
    requires |y| >= 2
    ensures var m := MomentsOf(Indices(|y|), y, |y|);
      && RawDenominator(m) > 0.0
      && (Product(m.n, m.xy) - Product(m.x, m.y)) / RawDenominator(m) == Slope(Indices(|y|), y)
  {
    var xs := Indices(|y|);
    var n, mx, my := |y| as real, MeanOf(xs), MeanOf(y);
    var m := MomentsOf(xs, y, |y|);
    DenominatorSign(y);
    MomentsFirst(xs, y, |y|);
    MomentSquares(xs, y, |y|);
    MeanTimes(xs);
    MeanTimes(y);
    CrossCentral(xs, y);
    CrossCentral(xs, xs);
    CentralTimes(n, m.xy, mx, my);
    CentralTimes(n, m.xx, mx, mx);
    var p, q := Central(m.xy, n, mx, my), Central(m.xx, n, mx, mx);
    assert RawDenominator(m) == n * q;
    assert q != 0.0;
    CancelFactor(n, p, q);
    assert Product(m.n, m.xy) - Product(m.x, m.y) == n * p;
  }

  lemma ProductQuotient(a: real, x: real, n: real)
    requires n != 0.0
    ensures Product(a, x) / n == Product(a, x / n)
  {
  }

  lemma RawIntercept(y: seq<real>, slope: real, sumX: real)
    requires |y| > 0 && sumX == MomentsOf(Indices(|y|), y, |y|).x
    ensures MomentsOf(Indices(|y|), y, |y|).y / |y| as real == MeanOf(y)
    ensures Product(slope, sumX) / |y| as real == Product(slope, MeanOf(Indices(|y|)))
  {
    MomentsFirst(Indices(|y|), y, |y|);
    ProductQuotient(slope, sumX, |y| as real);
  }
}
