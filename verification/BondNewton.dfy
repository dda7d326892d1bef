/** Newton's method on the street price: convexity, the "converged bonds self-arrest" claim, and the batched solve
    against the per-bond loop. */
module BondNewton {
  import opened BondMath
  import opened Wrappers

  // ---- the price is convex and falls --------------------------------------------------------------------------

  /** A line through p with slope s, dy further on. */
  function Line(p: real, s: real, dy: real): real {
    p + s * dy
  }

  lemma {:induction false} PowerPositive(v: real, k: nat)
    requires v > 0.0
    ensures Power(v, k) > 0.0
  {
    if k > 0 {
      PowerPositive(v, k - 1);
    }
  }

  lemma {:induction false} PowerProduct(a: real, s: real, c: real, k: nat)
    requires c == a * s
    ensures Power(c, k) == Power(a, k) * Power(s, k)
  {
    if k > 0 {
      PowerProduct(a, s, c, k - 1);
      var p, q := Power(a, k - 1), Power(s, k - 1);
      assert (a * s) * (p * q) == (a * p) * (s * q);
    }
  }

  lemma ScaleUp(c: real, x: real, y: real)
    requires c >= 0.0 && x >= y
    ensures c * x >= c * y
  {
    assert c * (x - y) >= 0.0;
  }

  lemma SignOfProduct(c: real, d: real)
    requires c >= 0.0
    ensures d <= 0.0 ==> c * d <= 0.0
    ensures d >= 0.0 ==> c * d >= 0.0
  {
  }

  lemma Square(c: real, d: real)
    requires c >= 0.0
    ensures c * (d * d) >= 0.0
  {
    SignOfProduct(c, d * d);
  }

  lemma BernoulliStep(s: real, p: real, j: real)
    requires s > 0.0 && j >= 0.0 && p >= Tangent(j, 1.0 - s)
    ensures s * p >= Tangent(j + 1.0, 1.0 - s)
  {
    var d := 1.0 - s;
    ScaleUp(s, p, 1.0 - j * d);
    Square(j, d);
    assert s * (1.0 - j * d) == (1.0 - d) - (1.0 - d) * (j * d);
    assert (1.0 - d) * (j * d) == j * d - j * (d * d);
    assert (j + 1.0) * d == j * d + d;
  }

  /** Bernoulli: s^k >= 1 + k (s - 1). */
  lemma {:induction false} Bernoulli(s: real, k: nat)
    requires s > 0.0
    ensures Power(s, k) >= Tangent(k as real, 1.0 - s)
  {
    if k > 0 {
      Bernoulli(s, k - 1);
      BernoulliStep(s, Power(s, k - 1), (k - 1) as real);
    }
  }

  /** With s = u0/u and d = (u - u0)/u0: 1 - s = d s, and d s is never above d. */
  lemma RatioGap(u: real, u0: real, e: real)
    requires u > 0.0 && u0 > 0.0 && e >= 0.0
    ensures u0 / u > 0.0 && 1.0 / u == (1.0 / u0) * (u0 / u)
    ensures Tangent(e, 1.0 - u0 / u) >= Tangent(e, (u - u0) / u0)
  {
    var s, d := u0 / u, (u - u0) / u0;
    assert s * u == u0 && d * u0 == u - u0;
    assert (1.0 / u0) * u0 == 1.0;
    assert 1.0 - s == d * s by {
      assert (1.0 - s) * u == u - u0;
      assert (d * s) * u == d * (s * u);
      Cancel(1.0 - s, d * s, u);
    }
    assert d - d * s == d * (d * s) by {
      assert d - d * s == d * (1.0 - s);
    }
    assert d * (d * s) == s * (d * d);
    Square(s, d);
    ScaleUp(e, d, d * s);
    assert 1.0 / u == (1.0 / u0) * s by {
      assert ((1.0 / u0) * s) * u == (1.0 / u0) * (s * u);
      Cancel(1.0 / u, (1.0 / u0) * s, u);
    }
  }

  lemma Cancel(x: real, y: real, z: real)
    requires x * z == y * z && z != 0.0
    ensures x == y
  {
    assert (x - y) * z == 0.0;
  }

  /** u^-k lies above its tangent at u0. */
  lemma PowerTangent(u: real, u0: real, k: nat)
    requires u > 0.0 && u0 > 0.0
    ensures Power(1.0 / u, k) >= Power(1.0 / u0, k) * Tangent(k as real, (u - u0) / u0)
  {
    var s := u0 / u;
    RatioGap(u, u0, k as real);
    PowerProduct(1.0 / u0, s, 1.0 / u, k);
    Bernoulli(s, k);
    PowerPositive(1.0 / u0, k);
    ScaleUp(Power(1.0 / u0, k), Power(s, k), Tangent(k as real, (u - u0) / u0));
  }

  /** Two positive functions above their tangents have a product above its tangent. */
  lemma ProductTangent(a: real, a0: real, w: real, p: real, p0: real, k: real, d: real, c: real, c0: real)
    requires a > 0.0 && a0 > 0.0 && p > 0.0 && p0 > 0.0 && w >= 0.0 && k >= 0.0 && c == a * p && c0 == a0 * p0
    requires a >= a0 * Tangent(w, d) && p >= p0 * Tangent(k, d)
    ensures c >= c0 * Tangent(w + k, d)
  {
    var f, g, h := Tangent(w, d), Tangent(k, d), Tangent(w + k, d);
    TangentSum(w, k, d);
    if f > 0.0 && g > 0.0 {
      ProductOfPositives(a, a0 * f, p, p0 * g);
      assert (a0 * f) * (p0 * g) == c0 * (f * g);
      ScaleUp(c0, f * g, h);
    } else {
      assert c0 * h <= 0.0 by {
        SignOfProduct(c0, h);
      }
    }
  }

  lemma ProductOfPositives(a: real, x: real, p: real, y: real)
    requires a >= x > 0.0 && p >= y > 0.0
    ensures a * p >= x * y
  {
    ScaleUp(a, p, y);
    ScaleUp(y, a, x);
  }

  /** Tangents of a sum of exponents: below the product, and not positive unless both are. */
  lemma TangentSum(w: real, k: real, d: real)
    requires w >= 0.0 && k >= 0.0
    ensures Tangent(w, d) * Tangent(k, d) >= Tangent(w + k, d)
    ensures Tangent(w, d) <= 0.0 || Tangent(k, d) <= 0.0 ==> Tangent(w + k, d) <= 0.0
  {
    var x, y := w * d, k * d;
    assert (w + k) * d == x + y;
    assert (1.0 - x) * (1.0 - y) == 1.0 - x - y + x * y;
    assert x * y == (w * k) * (d * d);
    SignOfProduct(w, k);
    Square(w * k, d);
    SignOfProduct(w, d);
    SignOfProduct(k, d);
  }

  lemma PowTangent(pow: PowFn, w: real, u: real, u0: real, k: nat)
    requires PowLaws(pow) && 0.0 <= w <= 1.0 && u > 0.0 && u0 > 0.0
    ensures pow(u, -(w + k as real)) >= pow(u0, -(w + k as real)) * Tangent(w + k as real, (u - u0) / u0)
  {
    assert 1.0 / u > 0.0 && 1.0 / u0 > 0.0;
    PowerPositive(1.0 / u, k);
    PowerPositive(1.0 / u0, k);
    PowerTangent(u, u0, k);
    assert AboveTangent(pow, u, u0, w) && Splits(pow, u, w, k) && Splits(pow, u0, w, k);
    ProductTangent(pow(1.0 / u, w), pow(1.0 / u0, w), w, Power(1.0 / u, k), Power(1.0 / u0, k), k as real,
                   (u - u0) / u0, pow(u, -(w + k as real)), pow(u0, -(w + k as real)));
  }

  lemma TermTangent(pow: PowFn, b: Bond, y: real, y0: real, k: nat)
    requires PowLaws(pow) && 0.0 <= b.w <= 1.0 && k < |b.flows| && b.flows[k] >= 0.0 && Base(y) > 0.0 && Base(y0) > 0.0
    ensures Term(pow, b, y, k) >= Line(Term(pow, b, y0, k), SlopeTerm(b.w + k as real, Term(pow, b, y0, k), Base(y0)),
                                       y - y0)
  {
    var u, u0, ex := Base(y), Base(y0), b.w + k as real;
    var d := (u - u0) / u0;
    PowTangent(pow, b.w, u, u0, k);
    var a, f, f0, x := b.flows[k], pow(u, -ex), pow(u0, -ex), Tangent(ex, d);
    ScaleUp(a, f, f0 * x);
    assert a * (f0 * x) == (a * f0) * x;
    assert u - u0 == (y - y0) / 2.0;
    TangentForm(ex, a * f0, u0, y - y0, d);
  }

  lemma TangentForm(ex: real, t0: real, u0: real, dy: real, d: real)
    requires u0 != 0.0 && d == (dy / 2.0) / u0
    ensures t0 * Tangent(ex, d) == Line(t0, SlopeTerm(ex, t0, u0), dy)
  {
    assert d * u0 == dy / 2.0;
    var z := -(ex / 2.0) * t0;
    assert (z / u0) * u0 == z;
    assert (z / u0) * dy == (z / u0) * (2.0 * (d * u0));
    assert (z / u0) * (2.0 * (d * u0)) == 2.0 * d * ((z / u0) * u0);
    assert 2.0 * d * z == -(t0 * (ex * d));
  }

  lemma AddTangents(p: real, p0: real, s: real, t: real, t0: real, r: real, dy: real)
    requires p >= Line(p0, s, dy) && t >= Line(t0, r, dy)
    ensures p + t >= Line(p0 + t0, s + r, dy)
  {
    assert (s + r) * dy == s * dy + r * dy;
  }

  /** The last of the first n flows: its term at y, its term at y0 and that term's slope. */
  ghost predicate LastTerms(pow: PowFn, b: Bond, y: real, y0: real, n: nat, t: real, t0: real, r: real) {
    && 0 < n <= |b.flows| && Base(y) != 0.0 && Base(y0) != 0.0
    && t == Term(pow, b, y, n - 1) && t0 == Term(pow, b, y0, n - 1)
    && r == SlopeTerm(b.w + (n - 1) as real, t0, Base(y0))
  }

  lemma PriceTangentStep(pow: PowFn, b: Bond, y: real, y0: real, n: nat, t: real, t0: real, r: real)
    requires LastTerms(pow, b, y, y0, n, t, t0, r)
    requires PriceTo(pow, b, y, n - 1) >= Line(PriceTo(pow, b, y0, n - 1), SlopeTo(pow, b, y0, n - 1), y - y0)
    requires t >= Line(t0, r, y - y0)
    ensures PriceTo(pow, b, y, n) >= Line(PriceTo(pow, b, y0, n), SlopeTo(pow, b, y0, n), y - y0)
  {
    var p, p0, s := PriceTo(pow, b, y, n - 1), PriceTo(pow, b, y0, n - 1), SlopeTo(pow, b, y0, n - 1);
    assert PriceTo(pow, b, y, n) == p + t;
    assert PriceTo(pow, b, y0, n) == p0 + t0;
    assert SlopeTo(pow, b, y0, n) == s + r;
    AddTangents(p, p0, s, t, t0, r, y - y0);
  }

  /** The price lies above its tangent at any yield with a positive base. */
  lemma {:induction false} PriceTangent(pow: PowFn, b: Bond, y: real, y0: real, n: nat)
    requires PowLaws(pow) && Regular(b) && n <= |b.flows| && Base(y) > 0.0 && Base(y0) > 0.0
    ensures PriceTo(pow, b, y, n) >= Line(PriceTo(pow, b, y0, n), SlopeTo(pow, b, y0, n), y - y0)
  {
    if n > 0 {
      PriceTangent(pow, b, y, y0, n - 1);
      TermTangent(pow, b, y, y0, n - 1);
      var t0 := Term(pow, b, y0, n - 1);
      PriceTangentStep(pow, b, y, y0, n, Term(pow, b, y, n - 1), t0, SlopeTerm(b.w + (n - 1) as real, t0, Base(y0)));
    }
  }

  lemma TermSign(pow: PowFn, b: Bond, y: real, k: nat)
    requires PowLaws(pow) && Regular(b) && k < |b.flows| && Base(y) > 0.0
    ensures Term(pow, b, y, k) >= 0.0
    ensures k == |b.flows| - 1 ==> Term(pow, b, y, k) > 0.0
  {
    var f := pow(Base(y), -(b.w + k as real));
    assert f > 0.0;
    SignOfProduct(f, b.flows[k]);
    if b.flows[k] > 0.0 {
      assert b.flows[k] * f > 0.0;
    }
  }

  lemma SlopeTermSign(ex: real, t: real, u: real)
    requires ex > 0.0 && t >= 0.0 && u > 0.0
    ensures SlopeTerm(ex, t, u) <= 0.0
    ensures t > 0.0 ==> SlopeTerm(ex, t, u) < 0.0
  {
    var z := ex / 2.0 * t;
    assert z >= 0.0 && (t > 0.0 ==> z > 0.0);
    assert z / u >= 0.0 && (z > 0.0 ==> z / u > 0.0);
    assert SlopeTerm(ex, t, u) == -(z / u);
  }

  /** The slope is negative. */
  lemma {:induction false} SlopeNegative(pow: PowFn, b: Bond, y: real, n: nat)
    requires PowLaws(pow) && Regular(b) && n <= |b.flows| && Base(y) > 0.0
    ensures SlopeTo(pow, b, y, n) <= 0.0
    ensures n == |b.flows| ==> SlopeTo(pow, b, y, n) < 0.0
  {
    if n > 0 {
      SlopeNegative(pow, b, y, n - 1);
      TermSign(pow, b, y, n - 1);
      SlopeTermSign(b.w + (n - 1) as real, Term(pow, b, y, n - 1), Base(y));
    }
  }

  // ---- Newton's iterates ----------------------------------------------------------------------------------

  function Residual(pow: PowFn, b: Bond, target: real, y: real): real {
    Price(pow, b, y) - target
  }

  function Step(pow: PowFn, b: Bond, target: real, y: real): real
    requires Base(y) != 0.0 && Slope(pow, b, y) != 0.0
  {
    y - Residual(pow, b, target, y) / Slope(pow, b, y)
  }

  /** From y0 the first step keeps the base positive: all that has to be checked, every later one does so by itself. */
  ghost predicate Steady(pow: PowFn, b: Bond, target: real, y0: real) {
    && PowLaws(pow) && Regular(b) && Base(y0) > 0.0
    && (SlopeNegative(pow, b, y0, |b.flows|); Base(Step(pow, b, target, y0)) > 0.0)
  }

  /** A check made at the start alone: the first step keeps the base positive exactly when the residual there is not too
      far below zero for the slope, and always from left of the root. */
  lemma SteadyIff(pow: PowFn, b: Bond, target: real, y0: real)
    requires PowLaws(pow) && Regular(b) && Base(y0) > 0.0
    ensures Steady(pow, b, target, y0) <==> Residual(pow, b, target, y0) > 2.0 * Base(y0) * Slope(pow, b, y0)
    ensures Residual(pow, b, target, y0) >= 0.0 ==> Steady(pow, b, target, y0)
  {
    SlopeNegative(pow, b, y0, |b.flows|);
    BaseAfter(Base(y0), Slope(pow, b, y0), Residual(pow, b, target, y0), y0, Step(pow, b, target, y0));
  }

  lemma BaseAfter(u: real, s: real, r: real, y: real, z: real)
    requires s < 0.0 && u == Base(y) > 0.0 && z == y - r / s
    ensures Base(z) > 0.0 <==> r > 2.0 * u * s
    ensures r >= 0.0 ==> r > 2.0 * u * s
  {
    var q := r / s;
    assert q * s == r;
    assert Base(z) == u - q / 2.0;
    assert 2.0 * u * s - r == (2.0 * u - q) * s;
    if 2.0 * u - q > 0.0 {
      assert (2.0 * u - q) * s < 0.0;
    } else {
      SignOfProduct(-s, 2.0 * u - q);
    }
    assert u * s < 0.0;
  }

  /** A step from anywhere lands at or left of the root: its residual is not negative. */
  lemma StepLands(pow: PowFn, b: Bond, target: real, y: real)
    requires PowLaws(pow) && Regular(b) && Base(y) > 0.0 && Slope(pow, b, y) != 0.0
    requires Base(Step(pow, b, target, y)) > 0.0
    ensures Residual(pow, b, target, Step(pow, b, target, y)) >= 0.0
  {
    var z, s, r := Step(pow, b, target, y), Slope(pow, b, y), Residual(pow, b, target, y);
    PriceTangent(pow, b, z, y, |b.flows|);
    assert Line(Price(pow, b, y), s, z - y) == target by {
      assert (r / s) * s == r;
    }
  }

  /** A step from left of the root rises, and its residual only shrinks. */
  lemma StepRises(pow: PowFn, b: Bond, target: real, y: real)
    requires PowLaws(pow) && Regular(b) && Base(y) > 0.0 && Slope(pow, b, y) != 0.0
    requires Residual(pow, b, target, y) >= 0.0
    ensures var z := Step(pow, b, target, y);
            z >= y && Base(z) > 0.0 && 0.0 <= Residual(pow, b, target, z) <= Residual(pow, b, target, y)
  {
    var z, s, r := Step(pow, b, target, y), Slope(pow, b, y), Residual(pow, b, target, y);
    SlopeNegative(pow, b, y, |b.flows|);
    assert r / s <= 0.0 by {
      QuotientSign(r, s);
    }
    StepLands(pow, b, target, y);
    PriceTangent(pow, b, y, z, |b.flows|);
    SlopeNegative(pow, b, z, |b.flows|);
    SignOfProduct(-Slope(pow, b, z), z - y);
  }

  lemma QuotientSign(r: real, s: real)
    requires r >= 0.0 && s < 0.0
    ensures r / s <= 0.0
  {
  }

  lemma StepKeepsGoing(pow: PowFn, b: Bond, target: real, y: real)
    requires PowLaws(pow) && Regular(b) && Base(y) > 0.0 && Slope(pow, b, y) < 0.0
    requires Base(Step(pow, b, target, y)) > 0.0 || Residual(pow, b, target, y) >= 0.0
    ensures var z := Step(pow, b, target, y);
            Base(z) > 0.0 && Slope(pow, b, z) < 0.0 && Residual(pow, b, target, z) >= 0.0
  {
    if Residual(pow, b, target, y) >= 0.0 {
      StepRises(pow, b, target, y);
    } else {
      StepLands(pow, b, target, y);
    }
    SlopeNegative(pow, b, Step(pow, b, target, y), |b.flows|);
  }

  /** The n-th iterate from y0. After the first step it never passes the root and never leaves positive bases. */
  ghost function Iterate(pow: PowFn, b: Bond, target: real, y0: real, n: nat): (y: real)
    requires Steady(pow, b, target, y0)
    ensures Base(y) > 0.0 && Slope(pow, b, y) < 0.0
    ensures n >= 1 ==> Residual(pow, b, target, y) >= 0.0
    ensures n == 0 ==> y == y0
  {
    SlopeNegative(pow, b, y0, |b.flows|);
    if n == 0 then y0
    else
      var p := Iterate(pow, b, target, y0, n - 1);
      StepKeepsGoing(pow, b, target, p);
      Step(pow, b, target, p)
  }

  ghost predicate InTolerance(pow: PowFn, b: Bond, target: real, y0: real, tol: real, n: nat)
    requires Steady(pow, b, target, y0)
  {
    -tol <= Residual(pow, b, target, Iterate(pow, b, target, y0, n)) <= tol
  }

  /** A lane left of its root rises to it with a shrinking residual, however long the others iterate. */
  lemma {:induction false} IteratesRise(pow: PowFn, b: Bond, target: real, y0: real, m: nat, n: nat)
    requires Steady(pow, b, target, y0) && m <= n
    requires m >= 1 || Residual(pow, b, target, y0) >= 0.0
    ensures Iterate(pow, b, target, y0, m) <= Iterate(pow, b, target, y0, n)
    ensures 0.0 <= Residual(pow, b, target, Iterate(pow, b, target, y0, n))
                <= Residual(pow, b, target, Iterate(pow, b, target, y0, m))
    decreases n - m
  {
    if m < n {
      IteratesRise(pow, b, target, y0, m, n - 1);
      StepRises(pow, b, target, Iterate(pow, b, target, y0, n - 1));
    }
  }

  /** The check a solver could make before it starts: the lane is left of its root, or its first step lands in
      tolerance. */
  ghost predicate Arrests(pow: PowFn, b: Bond, target: real, y0: real, tol: real)
    requires Steady(pow, b, target, y0)
  {
    SlopeNegative(pow, b, y0, |b.flows|);
    Residual(pow, b, target, y0) >= 0.0 || Residual(pow, b, target, Step(pow, b, target, y0)) <= tol
  }

  lemma StaysFrom(pow: PowFn, b: Bond, target: real, y0: real, tol: real, m: nat, n: nat)
    requires Steady(pow, b, target, y0) && m <= n && InTolerance(pow, b, target, y0, tol, m)
    requires m >= 1 || Arrests(pow, b, target, y0, tol)
    ensures InTolerance(pow, b, target, y0, tol, n)
  {
    if m >= 1 || Residual(pow, b, target, y0) >= 0.0 {
      IteratesRise(pow, b, target, y0, m, n);
    } else if n >= 1 {
      FirstIterate(pow, b, target, y0);
      IteratesRise(pow, b, target, y0, 1, n);
    }
  }

  lemma FirstIterate(pow: PowFn, b: Bond, target: real, y0: real)
    requires Steady(pow, b, target, y0)
    ensures Slope(pow, b, y0) != 0.0 && Iterate(pow, b, target, y0, 1) == Step(pow, b, target, y0)
  {
    assert Iterate(pow, b, target, y0, 0) == y0;
  }

  /** Self-arrest: a lane in tolerance at pass m is in tolerance at every later pass if and only if it has taken a step,
      or starts left of its root, or its first step lands in tolerance. */
  lemma SelfArrestIff(pow: PowFn, b: Bond, target: real, y0: real, tol: real, m: nat)
    requires Steady(pow, b, target, y0) && InTolerance(pow, b, target, y0, tol, m)
    ensures (forall n: nat :: m <= n ==> InTolerance(pow, b, target, y0, tol, n)) <==>
            m >= 1 || Arrests(pow, b, target, y0, tol)
  {
    if m >= 1 || Arrests(pow, b, target, y0, tol) {
      forall n: nat | m <= n ensures InTolerance(pow, b, target, y0, tol, n) {
        StaysFrom(pow, b, target, y0, tol, m, n);
      }
    } else {
      FirstIterate(pow, b, target, y0);
      assert !InTolerance(pow, b, target, y0, tol, 1);
    }
  }

  // ---- a lane that leaves its tolerance -------------------------------------------------------------------

  /** One redemption of 1, one period out, at exponent w + 0 = 1. */
  const ZERO_BOND := Bond(1.0, [1.0])

  /** Its price is a constant over the base, whatever the power function. */
  lemma ZeroBondPrice(pow: PowFn, y: real)
    requires PowLaws(pow) && Base(y) > 0.0
    ensures pow(1.0, 0.0) > 0.0 && Price(pow, ZERO_BOND, y) == pow(1.0, 0.0) / Base(y)
    ensures Slope(pow, ZERO_BOND, y) == -0.5 * (pow(1.0, 0.0) / Base(y)) / Base(y)
  {
    var u, c := Base(y), pow(1.0, 0.0);
    assert 1.0 / 1.0 == 1.0;
    assert AboveTangent(pow, u, 1.0, 0.0) && AboveTangent(pow, 1.0, u, 0.0) && Splits(pow, u, 0.0, 1);
    assert Tangent(0.0, (u - 1.0) / 1.0) == 1.0 && Tangent(0.0, (1.0 - u) / u) == 1.0;
    assert pow(1.0 / u, 0.0) == c;
    assert Power(1.0 / u, 1) == 1.0 / u * Power(1.0 / u, 0) == 1.0 / u;
    assert Term(pow, ZERO_BOND, y, 0) == c * (1.0 / u) == c / u;
    assert PriceTo(pow, ZERO_BOND, y, 1) == PriceTo(pow, ZERO_BOND, y, 0) + c / u;
    assert SlopeTo(pow, ZERO_BOND, y, 1) == SlopeTo(pow, ZERO_BOND, y, 0) + SlopeTerm(1.0, c / u, u);
  }

  /** A converged bond need not self-arrest: priced at par and started at 1.2, right of its root at 0, this one is in
      tolerance at the first pass and out of it at the second. */
  lemma LeavesTolerance(pow: PowFn)
    requires PowLaws(pow)
    ensures var c := pow(1.0, 0.0);
            && Steady(pow, ZERO_BOND, c, 1.2)
            && InTolerance(pow, ZERO_BOND, c, 1.2, 0.375 * c, 0)
            && !InTolerance(pow, ZERO_BOND, c, 1.2, 0.375 * c, 1)
  {
    var c := pow(1.0, 0.0);
    ZeroBondPrice(pow, 1.2);
    SlopeNegative(pow, ZERO_BOND, 1.2, 1);
    assert Residual(pow, ZERO_BOND, c, 1.2) == -0.375 * c;
    assert Slope(pow, ZERO_BOND, 1.2) == -0.1953125 * c;
    assert Step(pow, ZERO_BOND, c, 1.2) == -0.72 by {
      RatioOf(-0.375, -0.1953125, c);
    }
    ZeroBondPrice(pow, -0.72);
    assert c / 0.64 == 1.5625 * c;
    FirstIterate(pow, ZERO_BOND, c, 1.2);
  }

  /** A start can be too far right: the same bond at the same price from a yield of 2 steps onto base 0, where no power
      is defined. */
  lemma StepsOffTheBases(pow: PowFn)
    requires PowLaws(pow)
    ensures var c := pow(1.0, 0.0);
            Slope(pow, ZERO_BOND, 2.0) != 0.0 && Base(Step(pow, ZERO_BOND, c, 2.0)) == 0.0
            && !Steady(pow, ZERO_BOND, c, 2.0)
  {
    var c := pow(1.0, 0.0);
    ZeroBondPrice(pow, 2.0);
    assert Residual(pow, ZERO_BOND, c, 2.0) == -0.5 * c;
    assert Slope(pow, ZERO_BOND, 2.0) == -0.125 * c;
    RatioOf(-0.5, -0.125, c);
  }

  lemma RatioOf(a: real, b: real, c: real)
    requires b != 0.0 && c != 0.0
    ensures b * c != 0.0 && (a * c) / (b * c) == a / b
  {
    Cancel((a * c) / (b * c), a / b, b * c);
  }

  // ---- every start, steady or not -------------------------------------------------------------------------

  /** A bond whose cashflows all fall at fractional exponents, as those of the universe do: with a base that is not
      positive its price is no number. */
  ghost predicate Street(b: Bond) {
    Regular(b) && b.w < 1.0
  }

  /** A lane's yield; none once the arithmetic has left the numbers. */
  type Lane = Option<real>

  predicate Priced(y: Lane) {
    y.Some? && Base(y.value) > 0.0
  }

  /** Newton's step on a lane. Without a price there is no residual, and nothing to step by. */
  ghost function LaneStep(pow: PowFn, b: Bond, target: real, y: Lane): Lane
    requires PowLaws(pow) && Regular(b)
  {
    if !Priced(y) then None else
      SlopeNegative(pow, b, y.value, |b.flows|);
      Some(Step(pow, b, target, y.value))
  }

  /** The n-th yield of a lane, whatever it started from. */
  ghost function Trace(pow: PowFn, b: Bond, target: real, y0: Lane, n: nat): Lane
    requires PowLaws(pow) && Regular(b)
  {
    if n == 0 then y0 else LaneStep(pow, b, target, Trace(pow, b, target, y0, n - 1))
  }

  /** The test a solve makes of a lane: false of anything that is no number. */
  ghost predicate Within(pow: PowFn, b: Bond, target: real, y: Lane, tol: real) {
    Priced(y) && -tol <= Residual(pow, b, target, y.value) <= tol
  }

  ghost predicate SteadyLane(pow: PowFn, b: Bond, target: real, y0: Lane) {
    y0.Some? && Steady(pow, b, target, y0.value)
  }

  /** A steady lane is its iterates. */
  lemma {:induction false} TraceIsIterate(pow: PowFn, b: Bond, target: real, y0: Lane, n: nat)
    requires SteadyLane(pow, b, target, y0)
    ensures Trace(pow, b, target, y0, n) == Some(Iterate(pow, b, target, y0.value, n))
  {
    if n > 0 {
      TraceIsIterate(pow, b, target, y0, n - 1);
    }
  }

  lemma WithinIsInTolerance(pow: PowFn, b: Bond, target: real, y0: Lane, tol: real, n: nat)
    requires SteadyLane(pow, b, target, y0)
    ensures Priced(Trace(pow, b, target, y0, n))
    ensures Within(pow, b, target, Trace(pow, b, target, y0, n), tol) <==> InTolerance(pow, b, target, y0.value, tol, n)
  {
    TraceIsIterate(pow, b, target, y0, n);
  }

  /** A lane that is not steady has no price from pass 1 on and is no number from pass 2 on. */
  lemma {:induction false} LostFrom(pow: PowFn, b: Bond, target: real, y0: Lane, n: nat)
    requires PowLaws(pow) && Regular(b) && !SteadyLane(pow, b, target, y0) && n >= 1
    ensures !Priced(Trace(pow, b, target, y0, n)) && (n >= 2 ==> Trace(pow, b, target, y0, n).None?)
  {
    assert Trace(pow, b, target, y0, 0) == y0;
    if n > 1 {
      LostFrom(pow, b, target, y0, n - 1);
    }
  }

  /** A lane has a price at every pass if and only if it is steady. */
  lemma PricedForeverIff(pow: PowFn, b: Bond, target: real, y0: Lane)
    requires PowLaws(pow) && Regular(b)
    ensures (forall n: nat :: Priced(Trace(pow, b, target, y0, n))) <==> SteadyLane(pow, b, target, y0)
  {
    if SteadyLane(pow, b, target, y0) {
      forall n: nat ensures Priced(Trace(pow, b, target, y0, n)) {
        TraceIsIterate(pow, b, target, y0, n);
      }
    } else {
      LostFrom(pow, b, target, y0, 1);
    }
  }

  /** From any start with a price, some target loses the lane: its first step lands on base 0. */
  lemma EveryStartCanBeLost(pow: PowFn, b: Bond, y0: real) returns (target: real)
    requires PowLaws(pow) && Regular(b) && Base(y0) > 0.0
    ensures !Steady(pow, b, target, y0)
  {
    target := Price(pow, b, y0) - 2.0 * Base(y0) * Slope(pow, b, y0);
    SteadyIff(pow, b, target, y0);
  }

  /** The pass a solve of this one lane stops at: the first within tolerance, or the cap. */
  ghost predicate StopsAt(pow: PowFn, b: Bond, target: real, y0: Lane, tol: real, cap: nat, n: nat)
    requires PowLaws(pow) && Regular(b)
  {
    && n <= cap
    && (n < cap ==> Within(pow, b, target, Trace(pow, b, target, y0, n), tol))
    && forall m: nat :: m < n ==> !Within(pow, b, target, Trace(pow, b, target, y0, m), tol)
  }

  /** A lost lane's own solve runs to the cap, unless its start was within tolerance. */
  lemma LostRunsToTheCap(pow: PowFn, b: Bond, target: real, y0: Lane, tol: real, cap: nat, n: nat)
    requires PowLaws(pow) && Regular(b) && !SteadyLane(pow, b, target, y0) && StopsAt(pow, b, target, y0, tol, cap, n)
    ensures n == cap || (n == 0 && Within(pow, b, target, y0, tol))
  {
    if 1 <= n < cap {
      LostFrom(pow, b, target, y0, n);
      assert false;
    }
    assert Trace(pow, b, target, y0, 0) == y0;
  }
}
