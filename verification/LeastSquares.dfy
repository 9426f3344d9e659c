/** The least-squares line of Time.cpp's `fitLine`, over exact reals. */
module LeastSquares {
  import opened Numerics

  datatype TimeSample = TimeSample(mac: int, unix: int, mono: int, latency: int)

  /** `fitLine`'s outcome: refused, or a slope and the rounded intercept at the MAC origin. */
  datatype Fit = NoFit | Line(scale: real, unixOrigin: int)

  // ----- Sums over real sequences --------------------------------------------------------

  function Sum(v: seq<real>): real {
    if v == [] then 0.0 else Sum(v[..|v| - 1]) + v[|v| - 1]
  }

  function Dot(u: seq<real>, v: seq<real>): real
    requires |u| == |v|
  {
    if u == [] then 0.0 else Dot(u[..|u| - 1], v[..|v| - 1]) + Times(u[|u| - 1], v[|v| - 1])
  }

  function Mean(v: seq<real>): real
    requires v != []
  {
    Sum(v) / |v| as real
  }

  function Minus(v: seq<real>, c: real): (r: seq<real>)
    ensures |r| == |v|
  {
    seq(|v|, i requires 0 <= i < |v| => v[i] - c)
  }

  function Centered(v: seq<real>): (r: seq<real>)
    requires v != []
    ensures |r| == |v|
  {
    Minus(v, Mean(v))
  }

  /** What the line y = b + a * x leaves of each y. */
  function Residuals(x: seq<real>, y: seq<real>, a: real, b: real): (r: seq<real>)
    requires |x| == |y|
    ensures |r| == |x|
  {
    seq(|x|, i requires 0 <= i < |x| => y[i] - (b + Times(a, x[i])))
  }

  /** Sum of squared residuals of the line y = b + a * x. */
  function Rss(x: seq<real>, y: seq<real>, a: real, b: real): real
    requires |x| == |y|
  {
    var r := Residuals(x, y, a, b);
    Dot(r, r)
  }

  // ----- fitLine -------------------------------------------------------------------------

  function Xs(s: seq<TimeSample>, macOrigin: int): (r: seq<real>)
    ensures |r| == |s|
  {
    seq(|s|, i requires 0 <= i < |s| => (s[i].mac - macOrigin) as real)
  }

  function Ys(s: seq<TimeSample>, unixOrigin: int): (r: seq<real>)
    ensures |r| == |s|
  {
    seq(|s|, i requires 0 <= i < |s| => (s[i].unix - unixOrigin) as real)
  }

  function Denominator(x: seq<real>): real
    requires x != []
  {
    Dot(Centered(x), Centered(x))
  }

  function Slope(x: seq<real>, y: seq<real>): real
    requires |x| == |y| > 0 && Denominator(x) != 0.0
  {
    Dot(Centered(x), Centered(y)) / Denominator(x)
  }

  function Intercept(x: seq<real>, y: seq<real>): real
    requires |x| == |y| > 0 && Denominator(x) != 0.0
  {
    Mean(y) - Times(Slope(x, y), Mean(x))
  }

  function FitOf(s: seq<TimeSample>, macOrigin: int, unixOrigin: int): Fit {
    var x, y := Xs(s, macOrigin), Ys(s, unixOrigin);
    if |s| < 2 || Denominator(x) == 0.0 then NoFit
    else Line(Slope(x, y), unixOrigin + LlRound(Intercept(x, y)))
  }

  method Means(s: seq<TimeSample>, macOrigin: int, unixOrigin: int) returns (meanX: real, meanY: real)
    requires s != []
    ensures meanX == Mean(Xs(s, macOrigin)) && meanY == Mean(Ys(s, unixOrigin))
  {
    ghost var x, y := Xs(s, macOrigin), Ys(s, unixOrigin);
    var sumX, sumY := 0.0, 0.0;
    var i := 0;
    while i < |s|
      invariant i <= |s|
      invariant sumX == Sum(x[..i]) && sumY == Sum(y[..i])
    {
      assert x[..i + 1][..i] == x[..i] && y[..i + 1][..i] == y[..i];
      sumX := sumX + (s[i].mac - macOrigin) as real;
      sumY := sumY + (s[i].unix - unixOrigin) as real;
      i := i + 1;
    }
    assert x[..i] == x && y[..i] == y;
    meanX, meanY := sumX / |s| as real, sumY / |s| as real;
  }

  method CenteredProducts(s: seq<TimeSample>, macOrigin: int, unixOrigin: int, meanX: real, meanY: real)
    returns (numerator: real, denominator: real)
    ensures var u, v := Minus(Xs(s, macOrigin), meanX), Minus(Ys(s, unixOrigin), meanY);
      numerator == Dot(u, v) && denominator == Dot(u, u)
  {
    ghost var u, v := Minus(Xs(s, macOrigin), meanX), Minus(Ys(s, unixOrigin), meanY);
    numerator, denominator := 0.0, 0.0;
    var i := 0;
    while i < |s|
      invariant i <= |s|
      invariant numerator == Dot(u[..i], v[..i]) && denominator == Dot(u[..i], u[..i])
    {
      assert u[..i + 1][..i] == u[..i] && v[..i + 1][..i] == v[..i];
      var dx := (s[i].mac - macOrigin) as real - meanX;
      var dy := (s[i].unix - unixOrigin) as real - meanY;
      assert dx == u[i] && dy == v[i];
      numerator := numerator + dx * dy;
      denominator := denominator + dx * dx;
      i := i + 1;
    }
    assert u[..i] == u && v[..i] == v;
  }

  /** `fitLine`: one pass for the means, one for the centred products. */
  method FitLine(s: seq<TimeSample>, macOrigin: int, unixOrigin: int) returns (fit: Fit)
    ensures fit == FitOf(s, macOrigin, unixOrigin)
  {
    hide Sum, Dot, LlRound;
    if |s| < 2 {
      return NoFit;
    }
    var meanX, meanY := Means(s, macOrigin, unixOrigin);
    var numerator, denominator := CenteredProducts(s, macOrigin, unixOrigin, meanX, meanY);
    if denominator == 0.0 {
      return NoFit;
    }
    var scale := numerator / denominator;
    assert scale == Slope(Xs(s, macOrigin), Ys(s, unixOrigin));
    assert scale * meanX == Times(scale, meanX);
    return Line(scale, unixOrigin + LlRound(meanY - scale * meanX));
  }

  // ----- Sums of combinations ------------------------------------------------------------

  lemma {:induction false} SumMinus(v: seq<real>, c: real)
    ensures Sum(Minus(v, c)) == Sum(v) - Times(c, |v| as real)
  {
    hide Times;
    TimesRing(c, 0.0, 0.0);
    if v != [] {
      var n := |v| - 1;
      SumMinus(v[..n], c);
      assert Minus(v, c)[..n] == Minus(v[..n], c);
      TimesRing(c, n as real, 1.0);
      TimesOne(c);
    }
  }

  lemma CenteredSumsToZero(v: seq<real>)
    requires v != []
    ensures Sum(Centered(v)) == 0.0
  {
    hide Times;
    SumMinus(v, Mean(v));
    TimesDivide(0.0, Sum(v), |v| as real);
  }

  /** Sum and Dot of v - k * u. */
  lemma {:induction false} CombinationSums(w: seq<real>, u: seq<real>, v: seq<real>, e: seq<real>, k: real)
    requires |w| == |u| == |v| == |e| && forall i :: 0 <= i < |e| ==> e[i] == v[i] - Times(k, u[i])
    ensures Sum(e) == Sum(v) - Times(k, Sum(u))
    ensures Dot(e, w) == Dot(v, w) - Times(k, Dot(u, w))
  {
    hide Times;
    TimesOne(k);
    if e != [] {
      var n := |e| - 1;
      CombinationSums(w[..n], u[..n], v[..n], e[..n], k);
      TimesRing(k, Sum(u[..n]), u[n]);
      TimesRing(w[n], v[n], Times(k, u[n]));
      TimesRing(k, u[n], w[n]);
      TimesRing(k, Dot(u[..n], w[..n]), Times(u[n], w[n]));
    }
  }

  lemma {:induction false} DotMinus(e: seq<real>, x: seq<real>, m: real)
    requires |e| == |x|
    ensures Dot(e, Minus(x, m)) == Dot(e, x) - Times(m, Sum(e))
  {
    hide Times;
    TimesOne(m);
    if e != [] {
      var n := |e| - 1;
      DotMinus(e[..n], x[..n], m);
      assert Minus(x, m)[..n] == Minus(x[..n], m);
      TimesRing(e[n], x[n], m);
      TimesRing(m, e[n], 0.0);
      TimesRing(m, Sum(e[..n]), e[n]);
    }
  }

  lemma {:induction false} DotSymmetric(u: seq<real>, v: seq<real>)
    requires |u| == |v|
    ensures Dot(u, v) == Dot(v, u)
  {
    if u != [] {
      DotSymmetric(u[..|u| - 1], v[..|v| - 1]);
    }
  }

  lemma {:induction false} DotSelf(u: seq<real>)
    ensures Dot(u, u) >= 0.0
    ensures Dot(u, u) == 0.0 <==> forall i :: 0 <= i < |u| ==> u[i] == 0.0
  {
    hide Times;
    if u != [] {
      var n := |u| - 1;
      DotSelf(u[..n]);
      TimesSelf(u[n]);
      assert forall i :: 0 <= i < n ==> u[..n][i] == u[i];
    }
  }

  // ----- Optimality ----------------------------------------------------------------------

  /** The normal equations: what the fitted line leaves is orthogonal to the constants and to x. */
  lemma NormalEquations(x: seq<real>, y: seq<real>)
    requires |x| == |y| > 0 && Denominator(x) != 0.0
    ensures var e := Residuals(x, y, Slope(x, y), Intercept(x, y)); Sum(e) == 0.0 && Dot(e, x) == 0.0
  {
    hide Times;
    var k := Slope(x, y);
    var e, u, v := Residuals(x, y, k, Intercept(x, y)), Centered(x), Centered(y);
    forall i | 0 <= i < |x| ensures e[i] == v[i] - Times(k, u[i]) {
      TimesRing(k, x[i], Mean(x));
    }
    CombinationSums(u, u, v, e, k);
    CenteredSumsToZero(x);
    CenteredSumsToZero(y);
    TimesOne(k);
    DotSymmetric(u, v);
    TimesDivide(0.0, Dot(u, v), Dot(u, u));
    DotMinus(e, x, Mean(x));
    TimesOne(Mean(x));
  }

  /** The square of another line's residual lies above the tangent at the fitted residual. */
  lemma SquareAboveTangent(e: real, p: real, q: real, x: real, f: real)
    requires f == e + Times(p, x) + q
    ensures Times(f, f) >= Times(e, e) + 2.0 * Times(p, Times(e, x)) + 2.0 * Times(q, e)
  {
    var h := f - e;
    TimesSelf(h);
    assert f * f == e * e + 2.0 * (e * h) + h * h;
    assert e * h == p * (e * x) + q * e;
  }

  lemma {:induction false} RssAboveTangent(x: seq<real>, e: seq<real>, f: seq<real>, p: real, q: real)
    requires |x| == |e| == |f| && forall i :: 0 <= i < |x| ==> f[i] == e[i] + Times(p, x[i]) + q
    ensures Dot(f, f) >= Dot(e, e) + 2.0 * Times(p, Dot(e, x)) + 2.0 * Times(q, Sum(e))
  {
    hide Times;
    TimesOne(p);
    TimesOne(q);
    if x != [] {
      var n := |x| - 1;
      RssAboveTangent(x[..n], e[..n], f[..n], p, q);
      SquareAboveTangent(e[n], p, q, x[n], f[n]);
      TimesRing(p, Dot(e[..n], x[..n]), Times(e[n], x[n]));
      TimesRing(q, Sum(e[..n]), e[n]);
    }
  }

  /** No line whatsoever has a smaller sum of squared residuals than slope and intercept of the fit. */
  lemma LeastSquaresOptimal(x: seq<real>, y: seq<real>, a: real, b: real)
    requires |x| == |y| > 0 && Denominator(x) != 0.0
    ensures Rss(x, y, Slope(x, y), Intercept(x, y)) <= Rss(x, y, a, b)
  {
    hide Times, Slope, Intercept, Dot;
    var k, c := Slope(x, y), Intercept(x, y);
    var e, f := Residuals(x, y, k, c), Residuals(x, y, a, b);
    forall i | 0 <= i < |x| ensures f[i] == e[i] + Times(k - a, x[i]) + (c - b) {
      TimesRing(x[i], k, a);
    }
    NormalEquations(x, y);
    RssAboveTangent(x, e, f, k - a, c - b);
    TimesOne(k - a);
    TimesOne(c - b);
  }

  // ----- When the fit exists -------------------------------------------------------------

  lemma {:induction false} SumOfConstant(v: seq<real>, c: real)
    requires forall i :: 0 <= i < |v| ==> v[i] == c
    ensures Sum(v) == Times(c, |v| as real)
  {
    hide Times;
    TimesOne(c);
    if v != [] {
      SumOfConstant(v[..|v| - 1], c);
      TimesRing(c, (|v| - 1) as real, 1.0);
    }
  }

  /** `fitLine` succeeds exactly when two samples differ in device time. */
  lemma FitExistsIffMacsDiffer(s: seq<TimeSample>, macOrigin: int, unixOrigin: int)
    ensures FitOf(s, macOrigin, unixOrigin).Line? <==> exists i, j :: 0 <= i < j < |s| && s[i].mac != s[j].mac
  {
    if |s| >= 2 {
      var x := Xs(s, macOrigin);
      var u := Centered(x);
      DotSelf(u);
      if Denominator(x) == 0.0 {
        forall i, j | 0 <= i < j < |s| ensures s[i].mac == s[j].mac {
          assert u[i] == 0.0 && u[j] == 0.0;
          assert x[i] == x[j];
        }
      }
      if forall i, j :: 0 <= i < j < |s| ==> s[i].mac == s[j].mac {
        EqualMacsGiveZero(s, macOrigin);
      }
    }
  }

  lemma EqualMacsGiveZero(s: seq<TimeSample>, macOrigin: int)
    requires s != [] && forall i, j :: 0 <= i < j < |s| ==> s[i].mac == s[j].mac
    ensures Denominator(Xs(s, macOrigin)) == 0.0
  {
    hide Times;
    var x := Xs(s, macOrigin);
    SumOfConstant(x, x[0]);
    TimesDivide(x[0], 0.0, |x| as real);
    DotSelf(Centered(x));
    forall i | 0 <= i < |x| ensures Centered(x)[i] == 0.0 {
      assert s[i].mac == s[0].mac;
    }
  }

  // ----- Independence of the origins -----------------------------------------------------

  lemma MeanMinus(v: seq<real>, c: real)
    requires v != []
    ensures Mean(Minus(v, c)) == Mean(v) - c && Centered(Minus(v, c)) == Centered(v)
  {
    hide Times;
    SumMinus(v, c);
    TimesDivide(c, 0.0, |v| as real);
    SplitDivide(Sum(v), Times(c, |v| as real), |v| as real);
  }

  lemma SplitDivide(p: real, r: real, q: real)
    requires q != 0.0
    ensures (p - r) / q == p / q - r / q
  {
  }

  /** The unrounded fitted line, as a map from device time to Unix time. */
  function LineAt(s: seq<TimeSample>, macOrigin: int, unixOrigin: int, mac: int): real
    requires s != [] && Denominator(Xs(s, macOrigin)) != 0.0
  {
    var x, y := Xs(s, macOrigin), Ys(s, unixOrigin);
    unixOrigin as real + Intercept(x, y) + Times(Slope(x, y), (mac - macOrigin) as real)
  }

  /** Slope and unrounded line are the same whichever origins the caller passes. */
  lemma FitIgnoresOrigins(s: seq<TimeSample>, m0: int, u0: int, m1: int, u1: int, mac: int)
    requires s != []
    ensures Denominator(Xs(s, m0)) == Denominator(Xs(s, m1))
    ensures Denominator(Xs(s, m0)) != 0.0 ==>
              && Slope(Xs(s, m0), Ys(s, u0)) == Slope(Xs(s, m1), Ys(s, u1))
              && LineAt(s, m0, u0, mac) == LineAt(s, m1, u1, mac)
  {
    hide Times;
    var dm, du := (m1 - m0) as real, (u1 - u0) as real;
    assert Xs(s, m1) == Minus(Xs(s, m0), dm);
    assert Ys(s, u1) == Minus(Ys(s, u0), du);
    MeanMinus(Xs(s, m0), dm);
    MeanMinus(Ys(s, u0), du);
    if Denominator(Xs(s, m0)) != 0.0 {
      var k := Slope(Xs(s, m0), Ys(s, u0));
      TimesRing(k, Mean(Xs(s, m0)), dm);
      TimesRing(k, (mac - m0) as real, dm);
    }
  }

  // ----- Exact data ----------------------------------------------------------------------

  lemma {:induction false} ScaledSums(x: seq<real>, y: seq<real>, k: real)
    requires |x| == |y| && forall i :: 0 <= i < |x| ==> y[i] == Times(k, x[i])
    ensures Sum(y) == Times(k, Sum(x)) && Dot(x, y) == Times(k, Dot(x, x))
  {
    hide Times;
    TimesOne(k);
    if x != [] {
      var n := |x| - 1;
      ScaledSums(x[..n], y[..n], k);
      TimesRing(k, Sum(x[..n]), x[n]);
      TimesRing(k, x[n], x[n]);
      TimesRing(x[n], Times(k, x[n]), 0.0);
      TimesRing(k, Dot(x[..n], x[..n]), Times(x[n], x[n]));
    }
  }

  lemma SlopeOfLine(x: seq<real>, y: seq<real>, k: real)
    requires |x| == |y| > 0 && Denominator(x) != 0.0
    requires forall i :: 0 <= i < |x| ==> y[i] == Times(k, x[i])
    ensures Slope(x, y) == k && Intercept(x, y) == 0.0
  {
    hide Times;
    ScaledSums(x, y, k);
    TimesDivide(k, Sum(x), |x| as real);
    forall i | 0 <= i < |x| ensures Centered(y)[i] == Times(k, Centered(x)[i]) {
      TimesRing(k, x[i], Mean(x));
    }
    ScaledSums(Centered(x), Centered(y), k);
    TimesDivide(k, 0.0, Denominator(x));
  }

  /** Samples that lie on a line through the origins are fitted by exactly that line. */
  lemma FitRecoversLine(s: seq<TimeSample>, macOrigin: int, unixOrigin: int, k: real)
    requires FitOf(s, macOrigin, unixOrigin).Line?
    requires forall i :: 0 <= i < |s| ==> (s[i].unix - unixOrigin) as real == Times(k, (s[i].mac - macOrigin) as real)
    ensures FitOf(s, macOrigin, unixOrigin) == Line(k, unixOrigin)
  {
    SlopeOfLine(Xs(s, macOrigin), Ys(s, unixOrigin), k);
    LlRoundOfInt(0);
  }
}
