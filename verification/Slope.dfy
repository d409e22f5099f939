/** `_linear_slope` of cycler_detector.py: the slope of a least-squares line. */
module Slope {
  import opened Products

  function Sum(xs: seq<real>): real {
    if xs == [] then 0.0 else xs[0] + Sum(xs[1..])
  }

  /** Sum of (x - p)(y - q) over paired samples. */
  function Cross(xs: seq<real>, ys: seq<real>, p: real, q: real): real
    requires |xs| == |ys|
  {
    if xs == [] then 0.0 else Dev(xs[0], p, ys[0], q) + Cross(xs[1..], ys[1..], p, q)
  }

  function Dev(x: real, p: real, y: real, q: real): real {
    Times(x - p, y - q)
  }

  /** Sum of squared residuals of the line y = a + b x. */
  function Sse(xs: seq<real>, ys: seq<real>, a: real, b: real): real
    requires |xs| == |ys|
  {
    if xs == [] then 0.0
    else Square(Residual(xs[0], ys[0], a, b)) + Sse(xs[1..], ys[1..], a, b)
  }

  function Residual(x: real, y: real, a: real, b: real): real {
    y - a - b * x
  }

  function Square(d: real): real {
    Times(d, d)
  }

  function Mean(xs: seq<real>): real
    requires xs != []
  {
    Sum(xs) / |xs| as real
  }

  function LinearSlope(xs: seq<real>, ys: seq<real>): real
    requires |xs| == |ys|
  {
    if |xs| < 2 then 0.0
    else
      var num := Cross(xs, ys, Mean(xs), Mean(ys));
      var den := Cross(xs, xs, Mean(xs), Mean(xs));
      if den == 0.0 then 0.0 else num / den
  }

  ghost predicate AllEqual(xs: seq<real>) {
    forall i, j :: 0 <= i < j < |xs| ==> xs[i] == xs[j]
  }

  // ----- sums as moments -------------------------------------------------------------------

  /** Cross in terms of the count and the plain sums. */
  function CrossOf(n: real, sx: real, sy: real, sxy: real, p: real, q: real): real {
    sxy - p * sy - q * sx + n * (p * q)
  }

  lemma CrossStep(n: real, sx: real, sy: real, sxy: real, p: real, q: real, x: real, y: real)
    ensures CrossOf(n + 1.0, x + sx, y + sy, Dev(x, 0.0, y, 0.0) + sxy, p, q)
         == Dev(x, p, y, q) + CrossOf(n, sx, sy, sxy, p, q)
    ensures CrossOf(0.0, 0.0, 0.0, 0.0, p, q) == 0.0
  {
  }

  lemma {:induction false} CrossMoments(xs: seq<real>, ys: seq<real>, p: real, q: real)
    requires |xs| == |ys|
    ensures Cross(xs, ys, p, q) == CrossOf(|xs| as real, Sum(xs), Sum(ys), Cross(xs, ys, 0.0, 0.0), p, q)
  {
    hide CrossOf, Dev;
    if xs == [] {
      assert ys == [] && |xs| as real == 0.0;
      CrossStep(0.0, 0.0, 0.0, 0.0, p, q, 0.0, 0.0);
    } else {
      CrossMoments(xs[1..], ys[1..], p, q);
      assert |xs| as real == |xs[1..]| as real + 1.0;
      assert Sum(xs) == xs[0] + Sum(xs[1..]) && Sum(ys) == ys[0] + Sum(ys[1..]);
      CrossStep(|xs[1..]| as real, Sum(xs[1..]), Sum(ys[1..]), Cross(xs[1..], ys[1..], 0.0, 0.0), p, q, xs[0], ys[0]);
    }
  }

  /** Sse in terms of the plain sums. */
  function SseOf(n: real, sx: real, sy: real, sxx: real, sxy: real, syy: real, a: real, b: real): real {
    syy - 2.0 * (a * sy) - 2.0 * (b * sxy) + n * (a * a) + 2.0 * (a * b * sx) + b * b * sxx
  }

  lemma SseStep(n: real, sx: real, sy: real, sxx: real, sxy: real, syy: real, a: real, b: real, x: real, y: real)
    ensures SseOf(n + 1.0, x + sx, y + sy, Dev(x, 0.0, x, 0.0) + sxx, Dev(x, 0.0, y, 0.0) + sxy,
                  Dev(y, 0.0, y, 0.0) + syy, a, b)
         == Square(Residual(x, y, a, b)) + SseOf(n, sx, sy, sxx, sxy, syy, a, b)
    ensures SseOf(0.0, 0.0, 0.0, 0.0, 0.0, 0.0, a, b) == 0.0
  {
  }

  function SseMoments(xs: seq<real>, ys: seq<real>, a: real, b: real): real
    requires |xs| == |ys|
  {
    SseOf(|xs| as real, Sum(xs), Sum(ys), Cross(xs, xs, 0.0, 0.0), Cross(xs, ys, 0.0, 0.0),
          Cross(ys, ys, 0.0, 0.0), a, b)
  }

  lemma {:induction false} SseIsSseMoments(xs: seq<real>, ys: seq<real>, a: real, b: real)
    requires |xs| == |ys|
    ensures Sse(xs, ys, a, b) == SseMoments(xs, ys, a, b)
  {
    hide SseOf, Square, Dev, Residual;
    if xs == [] {
      assert ys == [] && |xs| as real == 0.0;
      SseStep(0.0, 0.0, 0.0, 0.0, 0.0, 0.0, a, b, 0.0, 0.0);
    } else {
      SseIsSseMoments(xs[1..], ys[1..], a, b);
      assert |xs| as real == |xs[1..]| as real + 1.0;
      assert Sum(xs) == xs[0] + Sum(xs[1..]) && Sum(ys) == ys[0] + Sum(ys[1..]);
      SseStep(|xs[1..]| as real, Sum(xs[1..]), Sum(ys[1..]), Cross(xs[1..], xs[1..], 0.0, 0.0),
              Cross(xs[1..], ys[1..], 0.0, 0.0), Cross(ys[1..], ys[1..], 0.0, 0.0), a, b, xs[0], ys[0]);
    }
  }

  /** Moving the second centre does not change a sum of deviations from the mean. */
  lemma AnyCentre(xs: seq<real>, ys: seq<real>, c: real)
    requires |xs| == |ys| && xs != []
    ensures Cross(xs, ys, Mean(xs), Mean(ys)) == Cross(xs, ys, Mean(xs), c)
  {
    hide *;
    SumIsMean(xs);
    CrossMoments(xs, ys, Mean(xs), Mean(ys));
    CrossMoments(xs, ys, Mean(xs), c);
    CentreAlgebra(|xs| as real, Sum(xs), Sum(ys), Cross(xs, ys, 0.0, 0.0), Mean(xs), Mean(ys), c);
  }

  lemma CentreAlgebra(n: real, sx: real, sy: real, sxy: real, m: real, q: real, c: real)
    requires sx == n * m
    ensures CrossOf(n, sx, sy, sxy, m, q) == CrossOf(n, sx, sy, sxy, m, c)
    ensures CrossOf(n, sx, sy, sxy, m, q) == sxy - m * sy
  {
  }

  lemma {:induction false} SpreadNonNegative(xs: seq<real>, p: real)
    ensures Cross(xs, xs, p, p) >= 0.0
    ensures Cross(xs, xs, p, p) == 0.0 <==> forall i :: 0 <= i < |xs| ==> xs[i] == p
  {
    hide Dev;
    if xs == [] {
    } else {
      SpreadNonNegative(xs[1..], p);
      DevSign(xs[0], p);
      assert forall i :: 0 < i < |xs| ==> xs[i] == xs[1..][i - 1];
      assert (forall i :: 0 <= i < |xs| ==> xs[i] == p)
        <==> xs[0] == p && forall i :: 0 <= i < |xs[1..]| ==> xs[1..][i] == p;
    }
  }

  lemma DevSign(x: real, p: real)
    ensures Dev(x, p, x, p) >= 0.0 && (Dev(x, p, x, p) == 0.0 <==> x == p)
  {
    hide *;
    DevIsSquare(x, p);
    SquareSign(x - p);
  }

  lemma DevIsSquare(x: real, p: real)
    ensures Dev(x, p, x, p) == Square(x - p)
  {
  }

  lemma SquareSign(d: real)
    ensures Square(d) >= 0.0 && (Square(d) == 0.0 <==> d == 0.0)
  {
    hide Times;
    TimesSign(d, d);
  }

  lemma {:induction false} SumAppend(xs: seq<real>, v: real)
    ensures Sum(xs + [v]) == Sum(xs) + v
  {
    if xs == [] {
      assert [v][1..] == [];
    } else {
      assert (xs + [v])[1..] == xs[1..] + [v];
      SumAppend(xs[1..], v);
    }
  }

  lemma {:induction false} SumOfEqual(xs: seq<real>, c: real)
    requires forall i :: 0 <= i < |xs| ==> xs[i] == c
    ensures Sum(xs) == c * |xs| as real
  {
    if xs == [] {
    } else {
      SumOfEqual(xs[1..], c);
    }
  }

  lemma Quotient(s: real, m: real, n: real)
    requires n > 0.0
    ensures s / n == m <==> s == m * n
  {
    assert s / n * n == s;
  }

  /** The denominator is positive exactly when the x values are not all equal. */
  lemma SpreadPositive(xs: seq<real>)
    requires xs != []
    ensures Cross(xs, xs, Mean(xs), Mean(xs)) >= 0.0
    ensures Cross(xs, xs, Mean(xs), Mean(xs)) > 0.0 <==> !AllEqual(xs)
  {
    SpreadNonNegative(xs, Mean(xs));
    if AllEqual(xs) {
      SumOfEqual(xs, xs[0]);
      Quotient(Sum(xs), xs[0], |xs| as real);
    } else {
      assert exists i, j :: 0 <= i < j < |xs| && xs[i] != xs[j];
    }
  }

  // ----- least squares --------------------------------------------------------------------

  /** The squared difference, at x = m, of two lines that differ by u + v x. */
  function OffAt(u: real, v: real, m: real): real {
    Square(u + v * m)
  }

  lemma Complete(n: real, sx: real, sy: real, sxx: real, sxy: real, syy: real, mx: real, my: real,
                 den: real, a: real, b: real, a2: real, b2: real)
    requires sx == n * mx && sy == n * my && den == sxx - mx * sx && b * den == sxy - mx * sy
    requires a == my - b * mx
    ensures SseOf(n, sx, sy, sxx, sxy, syy, a2, b2)
         == SseOf(n, sx, sy, sxx, sxy, syy, a, b) + n * OffAt(a2 - a, b2 - b, mx) + den * Square(b2 - b)
  {
  }

  /** The fitted line: through the mean point with the computed slope. */
  function Intercept(xs: seq<real>, ys: seq<real>): real
    requires |xs| == |ys| && xs != []
  {
    Mean(ys) - LinearSlope(xs, ys) * Mean(xs)
  }

  /** How much worse any other line is than the fitted one. */
  lemma ExcessError(xs: seq<real>, ys: seq<real>, a: real, b: real)
    requires |xs| == |ys| && !AllEqual(xs)
    ensures var b0, mx := LinearSlope(xs, ys), Mean(xs);
      Sse(xs, ys, a, b) == Sse(xs, ys, Intercept(xs, ys), b0)
        + |xs| as real * OffAt(a - Intercept(xs, ys), b - b0, mx)
        + Cross(xs, xs, mx, mx) * Square(b - b0)
  {
    hide *;
    NormalEquations(xs, ys);
    InterceptIs(xs, ys);
    var mx, my, b0 := Mean(xs), Mean(ys), LinearSlope(xs, ys);
    SseIsSseMoments(xs, ys, a, b);
    SseIsSseMoments(xs, ys, Intercept(xs, ys), b0);
    SumIsMean(xs);
    SumIsMean(ys);
    SseMomentsAre(xs, ys, a, b);
    SseMomentsAre(xs, ys, Intercept(xs, ys), b0);
    Complete(|xs| as real, Sum(xs), Sum(ys), Cross(xs, xs, 0.0, 0.0), Cross(xs, ys, 0.0, 0.0), Cross(ys, ys, 0.0, 0.0),
             mx, my, Cross(xs, xs, mx, mx), Intercept(xs, ys), b0, a, b);
  }

  lemma SumIsMean(xs: seq<real>)
    requires xs != []
    ensures Sum(xs) == |xs| as real * Mean(xs)
  {
  }

  lemma SseMomentsAre(xs: seq<real>, ys: seq<real>, a: real, b: real)
    requires |xs| == |ys|
    ensures SseMoments(xs, ys, a, b) == SseOf(|xs| as real, Sum(xs), Sum(ys), Cross(xs, xs, 0.0, 0.0),
                                              Cross(xs, ys, 0.0, 0.0), Cross(ys, ys, 0.0, 0.0), a, b)
  {
  }

  lemma NotAllEqual(xs: seq<real>)
    requires !AllEqual(xs)
    ensures |xs| >= 2
  {
  }

  lemma InterceptIs(xs: seq<real>, ys: seq<real>)
    requires |xs| == |ys| && xs != []
    ensures Intercept(xs, ys) == Mean(ys) - LinearSlope(xs, ys) * Mean(xs)
  {
  }

  lemma CentredSum(xs: seq<real>, ys: seq<real>)
    requires |xs| == |ys| && xs != []
    ensures Cross(xs, ys, Mean(xs), Mean(ys)) == Cross(xs, ys, 0.0, 0.0) - Mean(xs) * Sum(ys)
  {
    hide *;
    CrossMoments(xs, ys, Mean(xs), Mean(ys));
    SumIsMean(xs);
    CentreAlgebra(|xs| as real, Sum(xs), Sum(ys), Cross(xs, ys, 0.0, 0.0), Mean(xs), Mean(ys), 0.0);
  }

  lemma SlopeTimesSpread(xs: seq<real>, ys: seq<real>)
    requires |xs| == |ys| && !AllEqual(xs)
    ensures xs != [] && LinearSlope(xs, ys) * Cross(xs, xs, Mean(xs), Mean(xs)) == Cross(xs, ys, Mean(xs), Mean(ys))
  {
    hide *;
    NotAllEqual(xs);
    SpreadPositive(xs);
    SlopeIs(xs, ys);
    TimesQuotient(Cross(xs, ys, Mean(xs), Mean(ys)), Cross(xs, xs, Mean(xs), Mean(xs)));
  }

  lemma SlopeIs(xs: seq<real>, ys: seq<real>)
    requires |xs| == |ys| && |xs| >= 2 && Cross(xs, xs, Mean(xs), Mean(xs)) > 0.0
    ensures LinearSlope(xs, ys) == Cross(xs, ys, Mean(xs), Mean(ys)) / Cross(xs, xs, Mean(xs), Mean(xs))
  {
    hide Cross, Mean;
  }

  lemma TimesQuotient(p: real, d: real)
    requires d > 0.0
    ensures p / d * d == p
  {
  }

  /** What the fitted line satisfies. */
  lemma NormalEquations(xs: seq<real>, ys: seq<real>)
    requires |xs| == |ys| && !AllEqual(xs)
    ensures xs != []
    ensures var b, mx := LinearSlope(xs, ys), Mean(xs);
      && Cross(xs, xs, mx, mx) == Cross(xs, xs, 0.0, 0.0) - mx * Sum(xs)
      && b * Cross(xs, xs, mx, mx) == Cross(xs, ys, 0.0, 0.0) - mx * Sum(ys)
      && Cross(xs, xs, mx, mx) > 0.0
  {
    hide *;
    NotAllEqual(xs);
    SpreadPositive(xs);
    SlopeTimesSpread(xs, ys);
    CentredSum(xs, xs);
    CentredSum(xs, ys);
  }

  /** The slope is that of the one line that minimises the sum of squared residuals. */
  lemma LeastSquares(xs: seq<real>, ys: seq<real>, a: real, b: real)
    requires |xs| == |ys| && !AllEqual(xs)
    ensures var a0, b0 := Intercept(xs, ys), LinearSlope(xs, ys);
      && Sse(xs, ys, a0, b0) <= Sse(xs, ys, a, b)
      && (Sse(xs, ys, a, b) == Sse(xs, ys, a0, b0) <==> a == a0 && b == b0)
  {
    hide *;
    NormalEquations(xs, ys);
    ExcessError(xs, ys, a, b);
    var b0, mx := LinearSlope(xs, ys), Mean(xs);
    var n, u, v, den := |xs| as real, a - Intercept(xs, ys), b - b0, Cross(xs, xs, mx, mx);
    assert Sse(xs, ys, a, b) == Sse(xs, ys, Intercept(xs, ys), b0) + (n * OffAt(u, v, mx) + den * Square(v));
    ExcessSign(n, den, u, v, mx);
  }

  lemma ExcessSign(n: real, den: real, u: real, v: real, m: real)
    requires n > 0.0 && den > 0.0
    ensures n * OffAt(u, v, m) + den * Square(v) >= 0.0
    ensures n * OffAt(u, v, m) + den * Square(v) == 0.0 <==> u == 0.0 && v == 0.0
  {
    OffIs(u, v, m);
    SquareSign(u + v * m);
    SquareSign(v);
    hide *;
    WeightedSign(n, den, OffAt(u, v, m), Square(v));
  }

  lemma OffIs(u: real, v: real, m: real)
    ensures OffAt(u, v, m) == Square(u + v * m)
  {
  }

  lemma WeightedSign(n: real, d: real, p: real, q: real)
    requires n > 0.0 && d > 0.0 && p >= 0.0 && q >= 0.0
    ensures n * p + d * q >= 0.0
    ensures n * p + d * q == 0.0 <==> p == 0.0 && q == 0.0
  {
    assert p > 0.0 ==> n * p > 0.0;
    assert q > 0.0 ==> d * q > 0.0;
  }

  // ----- exact on a line -------------------------------------------------------------------

  ghost predicate OnLine(xs: seq<real>, ys: seq<real>, a: real, b: real)
    requires |xs| == |ys|
  {
    forall i :: 0 <= i < |xs| ==> Residual(xs[i], ys[i], a, b) == 0.0
  }

  lemma {:induction false} SseNonNegative(xs: seq<real>, ys: seq<real>, a: real, b: real)
    requires |xs| == |ys|
    ensures Sse(xs, ys, a, b) >= 0.0
    ensures OnLine(xs, ys, a, b) ==> Sse(xs, ys, a, b) == 0.0
  {
    hide Square, Residual;
    if xs == [] {
    } else {
      SquareSign(Residual(xs[0], ys[0], a, b));
      SseNonNegative(xs[1..], ys[1..], a, b);
      if OnLine(xs, ys, a, b) {
        assert OnLine(xs[1..], ys[1..], a, b);
      }
    }
  }

  /** On points of a line that are not all at one x, the slope found is the slope of the line. */
  lemma ExactOnALine(xs: seq<real>, ys: seq<real>, a: real, b: real)
    requires |xs| == |ys| && !AllEqual(xs) && OnLine(xs, ys, a, b)
    ensures LinearSlope(xs, ys) == b
  {
    hide *;
    NotAllEqual(xs);
    SseNonNegative(xs, ys, a, b);
    SseNonNegative(xs, ys, Intercept(xs, ys), LinearSlope(xs, ys));
    LeastSquares(xs, ys, a, b);
  }

  // ----- unchanged by a shift of the x axis ------------------------------------------------

  function Shifted(xs: seq<real>, c: real): (r: seq<real>)
    ensures |r| == |xs| && forall i :: 0 <= i < |xs| ==> r[i] == xs[i] - c
  {
    if xs == [] then [] else [xs[0] - c] + Shifted(xs[1..], c)
  }

  lemma {:induction false} ShiftedSum(xs: seq<real>, c: real)
    ensures Sum(Shifted(xs, c)) == Sum(xs) - c * |xs| as real
  {
    if xs == [] {
    } else {
      ShiftedSum(xs[1..], c);
      assert Shifted(xs, c)[1..] == Shifted(xs[1..], c);
      assert c * |xs| as real == c + c * |xs[1..]| as real;
    }
  }

  lemma ShiftedMean(xs: seq<real>, c: real)
    requires xs != []
    ensures Mean(Shifted(xs, c)) == Mean(xs) - c
  {
    ShiftedSum(xs, c);
    hide Sum, Shifted;
    MeanOfShift(Sum(xs), c, |xs| as real);
  }

  lemma MeanOfShift(s: real, c: real, n: real)
    requires n > 0.0
    ensures (s - c * n) / n == s / n - c
  {
    assert s / n * n == s;
    Quotient(s - c * n, s / n - c, n);
  }

  lemma {:induction false} ShiftedCross(xs: seq<real>, ys: seq<real>, c: real, p: real, q: real)
    requires |xs| == |ys|
    ensures Cross(Shifted(xs, c), ys, p - c, q) == Cross(xs, ys, p, q)
  {
    if xs == [] {
    } else {
      ShiftedCross(xs[1..], ys[1..], c, p, q);
      assert Shifted(xs, c)[1..] == Shifted(xs[1..], c);
      assert xs[0] - c - (p - c) == xs[0] - p;
    }
  }

  lemma {:induction false} ShiftedSpread(xs: seq<real>, c: real, p: real)
    ensures Cross(Shifted(xs, c), Shifted(xs, c), p - c, p - c) == Cross(xs, xs, p, p)
  {
    if xs == [] {
    } else {
      ShiftedSpread(xs[1..], c, p);
      assert Shifted(xs, c)[1..] == Shifted(xs[1..], c);
      assert xs[0] - c - (p - c) == xs[0] - p;
    }
  }

  /** The time origin the callers subtract does not matter. */
  lemma ShiftInvariant(xs: seq<real>, ys: seq<real>, c: real)
    requires |xs| == |ys|
    ensures LinearSlope(Shifted(xs, c), ys) == LinearSlope(xs, ys)
  {
    if |xs| >= 2 {
      ShiftedMean(xs, c);
      ShiftedCross(xs, ys, c, Mean(xs), Mean(ys));
      ShiftedSpread(xs, c, Mean(xs));
    }
  }

  // ----- the sign of the slope (Chebyshev's sum inequality) --------------------------------

  ghost predicate Rising(xs: seq<real>) {
    forall i, j :: 0 <= i < j < |xs| ==> xs[i] <= xs[j]
  }

  ghost predicate Falling(xs: seq<real>) {
    forall i, j :: 0 <= i < j < |xs| ==> xs[i] >= xs[j]
  }

  lemma {:induction false} TermsDecide(xs: seq<real>, ys: seq<real>, p: real, q: real)
    requires |xs| == |ys|
    ensures (forall i :: 0 <= i < |xs| ==> Dev(xs[i], p, ys[i], q) >= 0.0) ==> Cross(xs, ys, p, q) >= 0.0
    ensures (forall i :: 0 <= i < |xs| ==> Dev(xs[i], p, ys[i], q) <= 0.0) ==> Cross(xs, ys, p, q) <= 0.0
  {
    hide Dev;
    if xs == [] {
    } else {
      TermsDecide(xs[1..], ys[1..], p, q);
      assert forall i :: 0 <= i < |xs[1..]| ==> xs[1..][i] == xs[i + 1] && ys[1..][i] == ys[i + 1];
    }
  }

  /** How many leading values lie at or below m. */
  function AtOrBelow(xs: seq<real>, m: real): (k: nat)
    ensures k <= |xs|
    ensures forall i :: 0 <= i < k ==> xs[i] <= m
    ensures k < |xs| ==> xs[k] > m
  {
    if xs == [] || xs[0] > m then 0 else 1 + AtOrBelow(xs[1..], m)
  }

  /** The value of ys where xs crosses m. */
  function Crossing(xs: seq<real>, ys: seq<real>, m: real): real
    requires |xs| == |ys| && xs != []
  {
    var k := AtOrBelow(xs, m);
    if k < |ys| then ys[k] else ys[k - 1]
  }

  lemma TermSign(xs: seq<real>, ys: seq<real>, m: real, i: nat)
    requires |xs| == |ys| && i < |xs| && Rising(xs)
    ensures Rising(ys) ==> Dev(xs[i], m, ys[i], Crossing(xs, ys, m)) >= 0.0
    ensures Falling(ys) ==> Dev(xs[i], m, ys[i], Crossing(xs, ys, m)) <= 0.0
  {
    hide Times;
    var k, c := AtOrBelow(xs, m), Crossing(xs, ys, m);
    TimesSign(xs[i] - m, ys[i] - c);
    if i < k {
      assert xs[i] <= m;
    } else {
      assert xs[k] > m && xs[i] >= xs[k];
    }
  }

  lemma ChebyshevSum(xs: seq<real>, ys: seq<real>)
    requires |xs| == |ys| && xs != [] && Rising(xs)
    ensures Rising(ys) ==> Cross(xs, ys, Mean(xs), Mean(ys)) >= 0.0
    ensures Falling(ys) ==> Cross(xs, ys, Mean(xs), Mean(ys)) <= 0.0
  {
    hide *;
    var m := Mean(xs);
    var c := Crossing(xs, ys, m);
    AnyCentre(xs, ys, c);
    forall i | 0 <= i < |xs|
      ensures Rising(ys) ==> Dev(xs[i], m, ys[i], c) >= 0.0
      ensures Falling(ys) ==> Dev(xs[i], m, ys[i], c) <= 0.0
    {
      TermSign(xs, ys, m, i);
    }
    TermsDecide(xs, ys, m, c);
  }

  /** Values that never fall over time have a slope of at least zero; values that never rise, at most zero. */
  lemma SlopeSign(xs: seq<real>, ys: seq<real>)
    requires |xs| == |ys| && Rising(xs)
    ensures Rising(ys) ==> LinearSlope(xs, ys) >= 0.0
    ensures Falling(ys) ==> LinearSlope(xs, ys) <= 0.0
  {
    if |xs| >= 2 {
      ChebyshevSum(xs, ys);
      SpreadNonNegative(xs, Mean(xs));
      hide Cross, Mean, Rising, Falling;
      QuotientSign(Cross(xs, ys, Mean(xs), Mean(ys)), Cross(xs, xs, Mean(xs), Mean(xs)));
    }
  }

  lemma QuotientSign(p: real, d: real)
    requires d >= 0.0
    ensures d != 0.0 && p >= 0.0 ==> p / d >= 0.0
    ensures d != 0.0 && p <= 0.0 ==> p / d <= 0.0
  {
  }

  /** With every sample at the same time there is no slope to report. */
  lemma NoSpreadNoSlope(xs: seq<real>, ys: seq<real>)
    requires |xs| == |ys| && AllEqual(xs)
    ensures LinearSlope(xs, ys) == 0.0
  {
    if |xs| >= 2 {
      SpreadPositive(xs);
    }
  }
}
