/** The recursive Bezier curve over real numbers, and the Bernstein sum it equals. */
module Bezier {
  import opened Basics
  import opened Reals

  datatype Point2D = Point2D(x: real, y: real)

  function Scale(v: real, p: Point2D): Point2D { Point2D(p.x * v, p.y * v) }

  function Add(a: Point2D, b: Point2D): Point2D { Point2D(a.x + b.x, a.y + b.y) }

  /** BezierCurveRecursiveDefine<order>::calc on `order + 1` control points. */
  function Calc(p: seq<Point2D>, t: real): Point2D
    requires p != []
  {
    if |p| == 1 then p[0]
    else Add(Scale(1.0 - t, Calc(p[..|p| - 1], t)), Scale(t, Calc(p[1..], t)))
  }

  // ----- the Bernstein sum

  function Power(x: real, n: nat): real { if n == 0 then 1.0 else x * Power(x, n - 1) }

  function Choose(n: nat, k: nat): nat
  {
    if k == 0 then 1 else if n == 0 then 0 else Choose(n - 1, k - 1) + Choose(n - 1, k)
  }

  function Factorial(n: nat): nat { if n == 0 then 1 else n * Factorial(n - 1) }

  /** The Bernstein polynomial C(n, i) q^(n-i) t^i, zero outside 0..n; the curve has q = 1 - t. */
  function Bernstein(n: nat, i: int, q: real, t: real): real
  {
    if 0 <= i <= n then Choose(n, i) as real * Power(q, n - i) * Power(t, i) else 0.0
  }

  /** The weights of order `n`, moved `shift` control points to the right. */
  function Weights(n: nat, q: real, t: real, shift: nat): int -> real { i => Bernstein(n, i - shift, q, t) }

  /** The first `k` terms of the weighted sum of control points. */
  function Weighted(p: seq<Point2D>, w: int -> real, k: nat): Point2D
    requires k <= |p|
  {
    if k == 0 then Point2D(0.0, 0.0) else Add(Weighted(p, w, k - 1), Scale(w(k - 1), p[k - 1]))
  }

  function BernsteinSum(p: seq<Point2D>, t: real): Point2D
    requires p != []
  {
    Weighted(p, Weights(|p| - 1, 1.0 - t, t, 0), |p|)
  }

  lemma {:induction false} ChooseEnds(n: nat, k: nat)
    requires n <= k
    ensures Choose(n, k) == if n == k then 1 else 0
  {
    if k > 0 && n > 0 {
      ChooseEnds(n - 1, k - 1);
      ChooseEnds(n - 1, k);
    }
  }

  /** The coefficients are the usual quotients of factorials. */
  lemma {:induction false} ChooseIsQuotient(n: nat, k: nat)
    requires k <= n
    ensures Choose(n, k) * Factorial(k) * Factorial(n - k) == Factorial(n)
  {
    if k == n {
      ChooseEnds(n, n);
    } else if k > 0 {
      ChooseIsQuotient(n - 1, k - 1);
      ChooseIsQuotient(n - 1, k);
      PascalStep(Choose(n - 1, k - 1), Choose(n - 1, k), k, Factorial(k - 1), n - k, Factorial(n - k - 1), Factorial(n - 1));
    }
  }

  lemma PascalStep(a: int, b: int, k: int, f: int, m: int, g: int, h: int)
    requires a * f * (m * g) == h && b * (k * f) * g == h
    ensures (a + b) * (k * f) * (m * g) == (k + m) * h
  {
    PascalProduct(a, b, k, f, m, g);
    assert (k + m) * h == k * h + m * h;
  }

  lemma PascalProduct(a: int, b: int, k: int, f: int, m: int, g: int)
    ensures (a + b) * (k * f) * (m * g) == k * (a * f * (m * g)) + m * (b * (k * f) * g)
  {
    var kf, mg := k * f, m * g;
    assert (a + b) * kf * mg == a * kf * mg + b * kf * mg by {
      assert (a + b) * kf == a * kf + b * kf;
    }
    assert a * kf * mg == k * (a * f * mg) by {
      assert a * kf == k * (a * f);
    }
    assert b * kf * mg == m * (b * kf * g);
  }

  lemma SplitTerm(c: real, c1: real, c2: real, q: real, a: real, qa: real, t: real, d: real, td: real)
    requires c == c1 + c2 && qa == q * a && td == t * d
    ensures c * qa * td == q * (c2 * a * td) + t * (c1 * qa * d)
  {
    assert c * qa * td == c1 * (qa * td) + c2 * (qa * td);
    assert c1 * (qa * td) == t * (c1 * qa * d);
    assert c2 * (qa * td) == q * (c2 * a * td);
  }

  lemma FirstTerm(n: nat, q: real, t: real)
    requires 1 <= n
    ensures Bernstein(n, 0, q, t) == q * Bernstein(n - 1, 0, q, t)
  {
    assert Bernstein(n, 0, q, t) == Power(q, n);
    assert Bernstein(n - 1, 0, q, t) == Power(q, n - 1);
  }

  lemma LastTerm(n: nat, q: real, t: real)
    requires 1 <= n
    ensures Bernstein(n, n, q, t) == t * Bernstein(n - 1, n - 1, q, t)
  {
    ChooseEnds(n, n);
    ChooseEnds(n - 1, n - 1);
    assert Bernstein(n, n, q, t) == Power(t, n);
    assert Bernstein(n - 1, n - 1, q, t) == Power(t, n - 1);
  }

  /** Pascal's rule for Bernstein polynomials. */
  lemma BernsteinRecursion(n: nat, i: nat, q: real, t: real)
    requires 1 <= n && i <= n
    ensures Bernstein(n, i, q, t) == q * Bernstein(n - 1, i, q, t) + t * Bernstein(n - 1, i - 1, q, t)
  {
    if i == 0 {
      FirstTerm(n, q, t);
    } else if i == n {
      LastTerm(n, q, t);
    } else {
      SplitTerm(Choose(n, i) as real, Choose(n - 1, i - 1) as real, Choose(n - 1, i) as real,
                q, Power(q, n - 1 - i), Power(q, n - i), t, Power(t, i - 1), Power(t, i));
    }
  }

  /** One coordinate of one more term: the two smaller sums grow by `x * u` and `x * v`. */
  lemma AddTerm(q: real, t: real, a: real, b: real, u: real, v: real, x: real, w: real, m: real)
    requires w == a * q + b * t && m == q * u + t * v
    ensures w + x * m == (a + x * u) * q + (b + x * v) * t
  {
    calc {
      x * m;
      x * (q * u) + x * (t * v);
      (x * u) * q + (x * v) * t;
    }
    assert (a + x * u) * q == a * q + (x * u) * q;
    assert (b + x * v) * t == b * t + (x * v) * t;
  }

  lemma AddPoint(q: real, t: real, a: Point2D, b: Point2D, u: real, v: real, c: Point2D, w: Point2D, m: real)
    requires w == Add(Scale(q, a), Scale(t, b)) && m == q * u + t * v
    ensures Add(w, Scale(m, c)) == Add(Scale(q, Add(a, Scale(u, c))), Scale(t, Add(b, Scale(v, c))))
  {
    AddTerm(q, t, a.x, b.x, u, v, c.x, w.x, m);
    AddTerm(q, t, a.y, b.y, u, v, c.y, w.y, m);
  }

  /** Blended weights give the blend of the two weighted sums. */
  lemma {:induction false} WeightedBlend(p: seq<Point2D>, m: int -> real, u: int -> real, v: int -> real,
                                         q: real, t: real, k: nat)
    requires k <= |p| && forall i :: 0 <= i < k ==> m(i) == q * u(i) + t * v(i)
    ensures Weighted(p, m, k) == Add(Scale(q, Weighted(p, u, k)), Scale(t, Weighted(p, v, k)))
  {
    if k > 0 {
      WeightedBlend(p, m, u, v, q, t, k - 1);
      AddPoint(q, t, Weighted(p, u, k - 1), Weighted(p, v, k - 1), u(k - 1), v(k - 1), p[k - 1],
               Weighted(p, m, k - 1), m(k - 1));
    }
  }

  lemma {:induction false} WeightedPrefix(p: seq<Point2D>, w: int -> real, k: nat)
    requires k < |p|
    ensures Weighted(p[..|p| - 1], w, k) == Weighted(p, w, k)
  {
    if k > 0 {
      WeightedPrefix(p, w, k - 1);
    }
  }

  lemma {:induction false} WeightedShift(p: seq<Point2D>, w: int -> real, moved: int -> real, k: nat)
    requires k < |p| && moved(0) == 0.0 && forall i :: 0 <= i < k ==> moved(i + 1) == w(i)
    ensures Weighted(p, moved, k + 1) == Weighted(p[1..], w, k)
  {
    assert Weighted(p, moved, k + 1) == Add(Weighted(p, moved, k), Scale(moved(k), p[k]));
    if k > 0 {
      WeightedShift(p, w, moved, k - 1);
      assert moved(k - 1 + 1) == w(k - 1);
    }
  }

  /** For every order, control points and parameter, calc is the Bernstein sum. */
  lemma {:induction false} CalcIsBernsteinSum(p: seq<Point2D>, t: real)
    requires p != []
    ensures Calc(p, t) == BernsteinSum(p, t)
    decreases |p|
  {
    var n := |p| - 1;
    if n == 0 {
      var w := Weights(0, 1.0 - t, t, 0);
      assert Weighted(p, w, 0) == Point2D(0.0, 0.0);
      assert w(0) == 1.0;
    } else {
      CalcIsBernsteinSum(p[..n], t);
      CalcIsBernsteinSum(p[1..], t);
      SumSplits(p, n, 1.0 - t, t);
    }
  }

  /** `v` is `u` moved one control point on; both are zero where they have no control point. */
  ghost predicate Moved(n: nat, u: int -> real, v: int -> real)
  {
    u(n) == 0.0 && v(0) == 0.0 && forall i :: 0 <= i < n ==> v(i + 1) == u(i)
  }

  ghost predicate Mixes(n: nat, m: int -> real, u: int -> real, v: int -> real, q: real, t: real)
  {
    forall i :: 0 <= i < n + 1 ==> m(i) == q * u(i) + t * v(i)
  }

  lemma BlendSplits(p: seq<Point2D>, n: nat, m: int -> real, u: int -> real, v: int -> real, q: real, t: real)
    requires |p| == n + 1 && Moved(n, u, v) && Mixes(n, m, u, v, q, t)
    ensures Weighted(p, m, n + 1) == Add(Scale(q, Weighted(p[..n], u, n)), Scale(t, Weighted(p[1..], u, n)))
  {
    WeightedBlend(p, m, u, v, q, t, n + 1);
    WeightedPrefix(p, u, n);
    WeightedShift(p, u, v, n);
    assert Weighted(p, u, n + 1) == Weighted(p, u, n);
  }

  lemma WeightsMoved(n: nat, q: real, t: real)
    ensures Moved(n + 1, Weights(n, q, t, 0), Weights(n, q, t, 1))
  {
    var u, v := Weights(n, q, t, 0), Weights(n, q, t, 1);
    assert u(n + 1) == Bernstein(n, n + 1, q, t) == 0.0;
    assert v(0) == Bernstein(n, -1, q, t) == 0.0;
    forall i | 0 <= i < n + 1
      ensures v(i + 1) == u(i)
    {
      assert v(i + 1) == Bernstein(n, i, q, t) == u(i);
    }
  }

  lemma WeightsMixAt(n: nat, q: real, t: real, i: nat)
    requires 1 <= n && i <= n
    ensures Weights(n, q, t, 0)(i) == q * Weights(n - 1, q, t, 0)(i) + t * Weights(n - 1, q, t, 1)(i)
  {
    BernsteinRecursion(n, i, q, t);
    assert Weights(n, q, t, 0)(i) == Bernstein(n, i, q, t);
    assert Weights(n - 1, q, t, 0)(i) == Bernstein(n - 1, i, q, t);
    assert Weights(n - 1, q, t, 1)(i) == Bernstein(n - 1, i - 1, q, t);
  }

  lemma WeightsMix(n: nat, q: real, t: real)
    requires 1 <= n
    ensures Mixes(n, Weights(n, q, t, 0), Weights(n - 1, q, t, 0), Weights(n - 1, q, t, 1), q, t)
  {
    forall i | 0 <= i < n + 1
      ensures Weights(n, q, t, 0)(i) == q * Weights(n - 1, q, t, 0)(i) + t * Weights(n - 1, q, t, 1)(i)
    {
      WeightsMixAt(n, q, t, i);
    }
  }

  lemma SumSplits(p: seq<Point2D>, n: nat, q: real, t: real)
    requires 1 <= n && |p| == n + 1
    ensures Weighted(p, Weights(n, q, t, 0), n + 1) ==
            Add(Scale(q, Weighted(p[..n], Weights(n - 1, q, t, 0), n)),
                Scale(t, Weighted(p[1..], Weights(n - 1, q, t, 0), n)))
  {
    WeightsMoved(n - 1, q, t);
    WeightsMix(n, q, t);
    BlendSplits(p, n, Weights(n, q, t, 0), Weights(n - 1, q, t, 0), Weights(n - 1, q, t, 1), q, t);
  }

  // ----- symmetry, end points, bounds

  /** Reversing the control points runs the curve backwards. */
  lemma {:induction false} CalcReversed(p: seq<Point2D>, t: real)
    requires p != []
    ensures Calc(Reversed(p), t) == Calc(p, 1.0 - t)
    decreases |p|
  {
    var n := |p| - 1;
    if n > 0 {
      assert Reversed(p)[..n] == Reversed(p[1..]) && Reversed(p)[1..] == Reversed(p[..n]);
      CalcReversed(p[1..], t);
      CalcReversed(p[..n], t);
      assert 1.0 - (1.0 - t) == t;
    }
  }

  lemma {:induction false} CalcEnds(p: seq<Point2D>)
    requires p != []
    ensures Calc(p, 0.0) == p[0] && Calc(p, 1.0) == p[|p| - 1]
    decreases |p|
  {
    if |p| > 1 {
      CalcEnds(p[..|p| - 1]);
      CalcEnds(p[1..]);
    }
  }

  lemma Between(t: real, a: real, b: real, lo: real, hi: real)
    requires 0.0 <= t <= 1.0 && lo <= a <= hi && lo <= b <= hi
    ensures lo <= a * (1.0 - t) + b * t <= hi
  {
    ProductNotNegative(a - lo, 1.0 - t);
    ProductNotNegative(b - lo, t);
    ProductNotNegative(hi - a, 1.0 - t);
    ProductNotNegative(hi - b, t);
    assert (a - lo) * (1.0 - t) + (b - lo) * t == a * (1.0 - t) + b * t - lo;
    assert (hi - a) * (1.0 - t) + (hi - b) * t == hi - (a * (1.0 - t) + b * t);
  }

  predicate Within(q: Point2D, lo: Point2D, hi: Point2D) { lo.x <= q.x <= hi.x && lo.y <= q.y <= hi.y }

  lemma BlendStaysInBox(t: real, q: real, a: Point2D, b: Point2D, lo: Point2D, hi: Point2D)
    requires 0.0 <= t <= 1.0 && q == 1.0 - t && Within(a, lo, hi) && Within(b, lo, hi)
    ensures Within(Add(Scale(q, a), Scale(t, b)), lo, hi)
  {
    Between(t, a.x, b.x, lo.x, hi.x);
    Between(t, a.y, b.y, lo.y, hi.y);
  }

  /** For parameters from 0 to 1 the curve stays within any box around its control points. */
  lemma {:induction false} CalcStaysInBox(p: seq<Point2D>, t: real, lo: Point2D, hi: Point2D)
    requires p != [] && 0.0 <= t <= 1.0
    requires forall i :: 0 <= i < |p| ==> Within(p[i], lo, hi)
    ensures Within(Calc(p, t), lo, hi)
    decreases |p|
  {
    if |p| > 1 {
      CalcStaysInBox(p[..|p| - 1], t, lo, hi);
      CalcStaysInBox(p[1..], t, lo, hi);
      BlendStaysInBox(t, 1.0 - t, Calc(p[..|p| - 1], t), Calc(p[1..], t), lo, hi);
    }
  }
}
