/** The partials of `Duals` are derivatives: along any direction the value moves by the step times the gradient dotted
    with it, to within a constant times the step squared. */
module DualCalculus {
  import opened Duals

  function Abs(a: real): real {
    if a < 0.0 then -a else a
  }

  /** What `exp` obeys at every point: it is its own derivative, to within a constant times the step squared. */
  ghost predicate OwnDerivative(f: ExpFn) {
    forall v :: OwnDerivativeNear(f, v)
  }

  ghost predicate OwnDerivativeNear(f: ExpFn, v: real) {
    exists c, r :: OwnDerivativeAt(f, v, c, r)
  }

  ghost predicate OwnDerivativeAt(f: ExpFn, v: real, c: real, r: real) {
    c >= 0.0 && r > 0.0 && forall w :: -r <= w - v <= r ==>
      -(c * ((w - v) * (w - v))) <= f(w) - f(v) - (w - v) * f(v) <= c * ((w - v) * (w - v))
  }

  /** Every knot moved by h times its component of the direction. */
  function Moved(x: Vec, u: Vec, h: real): (r: Vec)
    requires |u| == |x|
    ensures |r| == |x| && forall i :: 0 <= i < |r| ==> r[i] == x[i] + h * u[i]
  {
    seq(|x|, i requires 0 <= i < |x| => x[i] + h * u[i])
  }

  /** Moving h along u keeps the expression defined and moves its value h s, to within c h h. */
  ghost predicate StepAlong(e: Expr, x: Vec, u: Vec, f: ExpFn, s: real, c: real, h: real)
    requires |u| == |x|
  {
    && Defined(e, Moved(x, u, h), f)
    && -Times(c, Times(Abs(h), Abs(h))) <= Move(e, x, u, f, h) - Times(h, s) <= Times(c, Times(Abs(h), Abs(h)))
  }

  /** The move of an expression's value. */
  function Move(e: Expr, x: Vec, u: Vec, f: ExpFn, h: real): real
    requires |u| == |x|
  {
    Value(e, Moved(x, u, h), f) - Value(e, x, f)
  }

  /** Every step of size at most r. */
  ghost predicate TangentAlong(e: Expr, x: Vec, u: Vec, f: ExpFn, s: real, c: real, r: real)
    requires |u| == |x|
  {
    c >= 0.0 && 0.0 < r <= 1.0 && forall h :: Abs(h) <= r ==> StepAlong(e, x, u, f, s, c, h)
  }

  // ---- the operations ---------------------------------------------------------------------------------------

  /** A quotient is the number that multiplies back, and a product is the product. */
  lemma QuotientMultipliesBack(a: Expr, b: Expr, x: Vec, f: ExpFn)
    requires Defined(Div(a, b), x, f)
    ensures Value(Div(a, b), x, f) * Value(b, x, f) == Value(a, x, f)
    ensures Value(Mul(Div(a, b), b), x, f) == Value(a, x, f)
  {
  }

  // ---- bounds on sums and products ----------------------------------------------------------------------------

  lemma BoundProduct(a: real, b: real, p: real, q: real)
    requires -p <= a <= p && -q <= b <= q
    ensures -Times(p, q) <= Times(a, b) <= Times(p, q)
  {
    assert (p - a) * (q + b) >= 0.0 && (p + a) * (q - b) >= 0.0;
    assert (p - a) * (q - b) >= 0.0 && (p + a) * (q + b) >= 0.0;
  }

  lemma BoundSum(a: real, b: real, total: real, p: real, q: real, bound: real)
    requires -p <= a <= p && -q <= b <= q && total == a + b && bound == p + q
    ensures -bound <= total <= bound
  {
  }

  lemma Swap(a: real, b: real, c: real)
    ensures Times(a, b) == Times(b, a)
    ensures Times(Times(a, b), c) == Times(Times(a, c), b) == Times(Times(c, a), b) == Times(c, Times(a, b))
  {
  }

  lemma Spread(a: real, b: real, c: real)
    ensures Times(a + b, c) == Times(a, c) + Times(b, c) && Times(c, a + b) == Times(c, a) + Times(c, b)
    ensures Times(a - b, c) == Times(a, c) - Times(b, c) && Times(c, a - b) == Times(c, a) - Times(c, b)
  {
  }

  lemma SquareBelow(c: real, n: real)
    requires c >= 0.0 && 0.0 <= n <= 1.0
    ensures Times(c, Times(n, n)) <= Times(c, n)
  {
    NonNegative(n, 1.0 - n);
    NonNegative(c, n * (1.0 - n));
    assert c * (n * (1.0 - n)) == c * n - c * (n * n);
  }

  lemma NonNegative(a: real, b: real)
    requires a >= 0.0 && b >= 0.0
    ensures a * b >= 0.0
  {
  }

  /** A move whose error off the tangent of slope s is c n n, for |h| <= n <= 1, is at most (l + c) n, l >= |s|. */
  lemma MoveBound(d: real, h: real, s: real, n: real, c: real, l: real)
    requires -n <= h <= n && n <= 1.0 && c >= 0.0 && -l <= s <= l
    requires -Times(c, Times(n, n)) <= d - Times(h, s) <= Times(c, Times(n, n))
    ensures -Times(l + c, n) <= d <= Times(l + c, n)
  {
    BoundProduct(s, h, l, n);
    Swap(s, h, 1.0);
    SquareBelow(c, n);
    Spread(l, c, n);
    BoundSum(Times(s, h), d - Times(h, s), d, Times(l, n), Times(c, n), Times(l + c, n));
  }

  /** An error of c w, scaled by b with |b| <= p. */
  lemma ScaleError(e: real, b: real, c: real, w: real, p: real)
    requires -Times(c, w) <= e <= Times(c, w) && -p <= b <= p
    ensures -Times(Times(c, p), w) <= Times(e, b) <= Times(Times(c, p), w)
  {
    BoundProduct(e, b, Times(c, w), p);
    Swap(c, w, p);
  }

  lemma BoundMoves(d: real, l: real, e: real, m: real, n: real)
    requires -Times(l, n) <= d <= Times(l, n) && -Times(m, n) <= e <= Times(m, n)
    ensures -Times(Times(l, m), Times(n, n)) <= Times(d, e) <= Times(Times(l, m), Times(n, n))
  {
    BoundProduct(d, e, Times(l, n), Times(m, n));
    assert Times(Times(l, n), Times(m, n)) == Times(Times(l, m), Times(n, n));
  }

  lemma SumOfErrors(a: real, b: real, c: real, total: real, p: real, q: real, r: real, w: real)
    requires -Times(p, w) <= a <= Times(p, w) && -Times(q, w) <= b <= Times(q, w) && -Times(r, w) <= c <= Times(r, w)
    requires total == a + b + c || total == a - b - c
    ensures -Times(p + q + r, w) <= total <= Times(p + q + r, w)
  {
    Spread(p, q, w);
    Spread(p + q, r, w);
  }

  // ---- products and quotients ---------------------------------------------------------------------------------

  lemma ProductSplits(a: real, a1: real, sa: real, b: real, b1: real, sb: real, h: real)
    ensures Times(a1, b1) - Times(a, b) - Times(h, Mix(b, sa, a, sb)) ==
            Times(a1 - a - Times(h, sa), b) + Times(b1 - b - Times(h, sb), a) + Times(a1 - a, b1 - b)
  {
    assert a1 * b1 - a * b - h * (b * sa + a * sb) ==
           (a1 - a - h * sa) * b + (b1 - b - h * sb) * a + (a1 - a) * (b1 - b);
  }

  function ProductBound(pa: real, la: real, ca: real, pb: real, lb: real, cb: real): real {
    Times(ca, pb) + Times(cb, pa) + Times(la + ca, lb + cb)
  }

  /** The product of two quantities that move along their tangents, from a to a1 and from b to b1; `pa`, `la`, `pb` and
      `lb` bound the quantities and their slopes. */
  lemma ProductTangent(a: real, a1: real, sa: real, b: real, b1: real, sb: real, h: real, n: real, ca: real, cb: real,
                       pa: real, la: real, pb: real, lb: real)
    requires -n <= h <= n && n <= 1.0 && ca >= 0.0 && cb >= 0.0
    requires -pa <= a <= pa && -la <= sa <= la && -pb <= b <= pb && -lb <= sb <= lb
    requires -Times(ca, Times(n, n)) <= a1 - a - Times(h, sa) <= Times(ca, Times(n, n))
    requires -Times(cb, Times(n, n)) <= b1 - b - Times(h, sb) <= Times(cb, Times(n, n))
    ensures var e := Times(a1, b1) - Times(a, b) - Times(h, Mix(b, sa, a, sb));
            var k := Times(ProductBound(pa, la, ca, pb, lb, cb), Times(n, n));
            -k <= e <= k
  {
    MoveBound(a1 - a, h, sa, n, ca, la);
    MoveBound(b1 - b, h, sb, n, cb, lb);
    ScaleError(a1 - a - Times(h, sa), b, ca, Times(n, n), pb);
    ScaleError(b1 - b - Times(h, sb), a, cb, Times(n, n), pa);
    BoundMoves(a1 - a, la + ca, b1 - b, lb + cb, n);
    ProductSplits(a, a1, sa, b, b1, sb, h);
    SumOfErrors(Times(a1 - a - Times(h, sa), b), Times(b1 - b - Times(h, sb), a), Times(a1 - a, b1 - b),
                Times(a1, b1) - Times(a, b) - Times(h, Mix(b, sa, a, sb)),
                Times(ca, pb), Times(cb, pa), Times(la + ca, lb + cb), Times(n, n));
  }

  lemma QuotientSplits(a: real, a1: real, sa: real, b: real, b1: real, sb: real, q0: real, q: real, s: real, h: real)
    requires Times(q0, b) == a && Times(q, b1) == a1 && Times(s, b) == sa - Times(q0, sb)
    ensures Times(q - q0 - Times(h, s), b1) ==
            a1 - a - Times(h, sa) - Times(b1 - b - Times(h, sb), q0) - Times(Times(h, s), b1 - b)
  {
    assert (q - q0 - h * s) * b1 == q * b1 - q0 * b1 - h * (s * b) - (h * s) * (b1 - b);
    assert h * (s * b) == h * sa - h * (q0 * sb);
  }

  lemma AtMost(a: real, b: real, m: real)
    requires m > 0.0 && a * m <= b * m
    ensures a <= b
  {
  }

  /** An error that times a divisor of size m / 2 or more is within k, is within c when c m = 2 k. */
  lemma DivideError(e: real, den: real, m: real, k: real, c: real)
    requires m > 0.0 && (2.0 * den >= m || 2.0 * den <= -m) && -k <= Times(e, den) <= k && Times(c, m) == 2.0 * k
    ensures -c <= e <= c
  {
    HalfDivisor(e, den, m, k);
    AtMost(e, c, m);
    AtMost(-e, c, m);
  }

  lemma HalfDivisor(e: real, den: real, m: real, k: real)
    requires m > 0.0 && (2.0 * den >= m || 2.0 * den <= -m) && -k <= Times(e, den) <= k
    ensures e * m <= 2.0 * k && -e * m <= 2.0 * k
  {
    var u, v := if e >= 0.0 then e else -e, if den >= 0.0 then den else -den;
    assert u * v <= k;
    assert u * m <= u * (2.0 * v);
    assert u * (2.0 * v) == 2.0 * (u * v);
  }

  lemma QuotientBound(ea: real, eb: real, q0: real, s: real, h: real, db: real, n: real, ca: real, cb: real, pq: real,
                      ls: real, lb: real, total: real)
    requires -n <= h <= n && -pq <= q0 <= pq && -ls <= s <= ls
    requires -Times(ca, Times(n, n)) <= ea <= Times(ca, Times(n, n))
    requires -Times(cb, Times(n, n)) <= eb <= Times(cb, Times(n, n))
    requires -Times(lb, n) <= db <= Times(lb, n)
    requires total == ea - Times(eb, q0) - Times(Times(h, s), db)
    ensures var k := Times(ca + Times(cb, pq) + Times(ls, lb), Times(n, n)); -k <= total <= k
  {
    ScaleError(eb, q0, cb, Times(n, n), pq);
    BoundProduct(h, s, n, ls);
    assert Times(n, ls) == Times(ls, n);
    BoundMoves(Times(h, s), ls, db, lb, n);
    SumOfErrors(ea, Times(eb, q0), Times(Times(h, s), db), total, ca, Times(cb, pq), Times(ls, lb), Times(n, n));
  }

  /** The quotient of two quantities that move along their tangents, from a to a1 and from b to b1, b1 of size m / 2 or
      more: `q0` and `q` are the quotients before and after, `s` the slope, each by what it multiplies back to. */
  lemma QuotientTangent(a: real, a1: real, sa: real, b: real, b1: real, sb: real, q0: real, q: real, s: real, h: real,
                        n: real, ca: real, cb: real, pq: real, ls: real, lb: real, m: real, c: real)
    requires -n <= h <= n && n <= 1.0 && ca >= 0.0 && cb >= 0.0
    requires -pq <= q0 <= pq && -ls <= s <= ls && -lb <= sb <= lb
    requires -Times(ca, Times(n, n)) <= a1 - a - Times(h, sa) <= Times(ca, Times(n, n))
    requires -Times(cb, Times(n, n)) <= b1 - b - Times(h, sb) <= Times(cb, Times(n, n))
    requires Times(q0, b) == a && Times(q, b1) == a1 && Times(s, b) == sa - Times(q0, sb)
    requires m > 0.0 && (2.0 * b1 >= m || 2.0 * b1 <= -m)
    requires Times(c, m) == 2.0 * (ca + Times(cb, pq) + Times(ls, lb + cb))
    ensures -Times(c, Times(n, n)) <= q - q0 - Times(h, s) <= Times(c, Times(n, n))
  {
    var k := ca + Times(cb, pq) + Times(ls, lb + cb);
    MoveBound(b1 - b, h, sb, n, cb, lb);
    QuotientSplits(a, a1, sa, b, b1, sb, q0, q, s, h);
    QuotientBound(a1 - a - Times(h, sa), b1 - b - Times(h, sb), q0, s, h, b1 - b, n, ca, cb, pq, ls, lb + cb,
                  Times(q - q0 - Times(h, s), b1));
    Swap(c, m, Times(n, n));
    Spread(k, k, Times(n, n));
    DivideError(q - q0 - Times(h, s), b1, m, Times(k, Times(n, n)), Times(c, Times(n, n)));
  }

  // ---- every expression ---------------------------------------------------------------------------------------

  function Min(a: real, b: real): real {
    if a < b then a else b
  }

  lemma AddStep(a: Expr, b: Expr, x: Vec, u: Vec, f: ExpFn, sa: real, ca: real, sb: real, cb: real, h: real)
    requires |u| == |x| && StepAlong(a, x, u, f, sa, ca, h) && StepAlong(b, x, u, f, sb, cb, h)
    ensures StepAlong(Add(a, b), x, u, f, Mix(1.0, sa, 1.0, sb), ca + cb, h)
    ensures StepAlong(Sub(a, b), x, u, f, Mix(1.0, sa, -1.0, sb), ca + cb, h)
  {
    var w, p, q := Times(Abs(h), Abs(h)), Move(a, x, u, f, h), Move(b, x, u, f, h);
    Spread(ca, cb, w);
    Spread(sa, sb, h);
    assert Mix(1.0, sa, 1.0, sb) == sa + sb && Mix(1.0, sa, -1.0, sb) == sa - sb;
    BoundSum(p - Times(h, sa), q - Times(h, sb), p + q - Times(h, sa + sb), Times(ca, w), Times(cb, w),
             Times(ca + cb, w));
    BoundSum(p - Times(h, sa), -(q - Times(h, sb)), p - q - Times(h, sa - sb), Times(ca, w), Times(cb, w),
             Times(ca + cb, w));
  }

  lemma MulStep(a: Expr, b: Expr, x: Vec, u: Vec, f: ExpFn, sa: real, ca: real, sb: real, cb: real, h: real,
                pa: real, la: real, pb: real, lb: real)
    requires |u| == |x| && StepAlong(a, x, u, f, sa, ca, h) && StepAlong(b, x, u, f, sb, cb, h)
    requires Abs(h) <= 1.0 && ca >= 0.0 && cb >= 0.0
    requires -pa <= Value(a, x, f) <= pa && -la <= sa <= la && -pb <= Value(b, x, f) <= pb && -lb <= sb <= lb
    ensures StepAlong(Mul(a, b), x, u, f, Mix(Value(b, x, f), sa, Value(a, x, f), sb),
                      ProductBound(pa, la, ca, pb, lb, cb), h)
  {
    var y, n := Moved(x, u, h), Abs(h);
    Magnitude(h);
    ProductTangent(Value(a, x, f), Value(a, y, f), sa, Value(b, x, f), Value(b, y, f), sb, h, n, ca, cb,
                   pa, la, pb, lb);
  }

  lemma Magnitude(h: real)
    ensures -Abs(h) <= h <= Abs(h) && Abs(h) >= 0.0
  {
  }

  /** What the quotient's two factors do to its slope: it is the number that, times the divisor, leaves sa - q0 sb. */
  lemma QuotientSlope(p: real, q: real, sa: real, sb: real)
    requires q != 0.0
    ensures Times(Mix(NumFactor(q), sa, DenFactor(p, q), sb), q) == sa - Times(Quot(p, q), sb)
  {
    var w, z := q / (q * q), -p / (q * q);
    assert w * q == 1.0 && z * q == -(p / q);
    assert (w * sa + z * sb) * q == (w * q) * sa + (z * q) * sb;
  }

  lemma QuotOf(p: real, q: real)
    requires q != 0.0
    ensures Times(Quot(p, q), q) == p
  {
  }

  lemma DivStep(a: Expr, b: Expr, x: Vec, u: Vec, f: ExpFn, sa: real, ca: real, sb: real, cb: real, h: real,
                s: real, pq: real, ls: real, lb: real, m: real, c: real)
    requires |u| == |x| && StepAlong(a, x, u, f, sa, ca, h) && StepAlong(b, x, u, f, sb, cb, h)
    requires Abs(h) <= 1.0 && ca >= 0.0 && cb >= 0.0 && Value(b, x, f) != 0.0
    requires s == Mix(NumFactor(Value(b, x, f)), sa, DenFactor(Value(a, x, f), Value(b, x, f)), sb)
    requires -pq <= Quot(Value(a, x, f), Value(b, x, f)) <= pq && -ls <= s <= ls && -lb <= sb <= lb
    requires m > 0.0 && var v := Value(b, Moved(x, u, h), f); 2.0 * v >= m || 2.0 * v <= -m
    requires Times(c, m) == 2.0 * (ca + Times(cb, pq) + Times(ls, lb + cb))
    ensures StepAlong(Div(a, b), x, u, f, s, c, h)
  {
    var y, p, q := Moved(x, u, h), Value(a, x, f), Value(b, x, f);
    Magnitude(h);
    QuotOf(p, q);
    QuotOf(Value(a, y, f), Value(b, y, f));
    QuotientSlope(p, q, sa, sb);
    QuotientTangent(p, Value(a, y, f), sa, q, Value(b, y, f), sb, Quot(p, q), Quot(Value(a, y, f), Value(b, y, f)), s,
                    h, Abs(h), ca, cb, pq, ls, lb, m, c);
  }

  /** f(v + d) - f(v) is the slope f(v) sa along h, when d moves along its tangent and f is its own derivative. */
  lemma ExpTangent(fv: real, df: real, d: real, sa: real, h: real, n: real, ca: real, cf: real, la: real, lf: real)
    requires -n <= h <= n && n <= 1.0 && ca >= 0.0 && cf >= 0.0 && -la <= sa <= la && -lf <= fv <= lf
    requires -Times(ca, Times(n, n)) <= d - Times(h, sa) <= Times(ca, Times(n, n))
    requires -Times(cf, Times(d, d)) <= df - Times(d, fv) <= Times(cf, Times(d, d))
    ensures var k := Times(Times(ca, lf) + Times(cf, Times(la + ca, la + ca)), Times(n, n));
            -k <= df - Times(h, Times(fv, sa)) <= k
  {
    MoveBound(d, h, sa, n, ca, la);
    ScaleError(d - Times(h, sa), fv, ca, Times(n, n), lf);
    SquareBound(d, la + ca, n);
    ScaleUp(cf, Times(d, d), Times(la + ca, la + ca), Times(n, n));
    Spread(d, Times(h, sa), fv);
    Swap(h, sa, fv);
    Reassociate(h, sa, fv);
    Spread(Times(ca, lf), Times(cf, Times(la + ca, la + ca)), Times(n, n));
    var e, g := Times(d - Times(h, sa), fv), df - Times(d, fv);
    BoundSum(e, g, df - Times(h, Times(fv, sa)), Times(Times(ca, lf), Times(n, n)),
             Times(Times(cf, Times(la + ca, la + ca)), Times(n, n)),
             Times(Times(ca, lf) + Times(cf, Times(la + ca, la + ca)), Times(n, n)));
  }

  lemma SquareBound(d: real, l: real, n: real)
    requires -Times(l, n) <= d <= Times(l, n)
    ensures 0.0 <= Times(d, d) <= Times(Times(l, l), Times(n, n))
  {
    BoundMoves(d, l, d, l, n);
    NonNegative(Abs(d), Abs(d));
  }

  lemma ScaleUp(c: real, a: real, b: real, w: real)
    requires c >= 0.0 && a <= Times(b, w)
    ensures Times(c, a) <= Times(Times(c, b), w)
  {
    NonNegative(c, b * w - a);
    assert c * (b * w - a) == (c * b) * w - c * a;
  }

  lemma Reassociate(h: real, s: real, v: real)
    ensures Times(Times(h, s), v) == Times(h, Times(v, s))
  {
  }

  // ---- radii --------------------------------------------------------------------------------------------------

  /** A radius within which a move of at most l |h| stays at most m / 2. */
  lemma Radius(m: real, l: real) returns (r: real)
    requires m > 0.0 && l >= 0.0
    ensures r > 0.0 && 2.0 * Times(l, r) <= m
  {
    r := m / (2.0 * l + 1.0);
    assert r * (2.0 * l + 1.0) == m;
    Positive(r, 2.0 * l + 1.0);
    assert r * (2.0 * l + 1.0) == 2.0 * (l * r) + r;
  }

  lemma Positive(r: real, w: real)
    requires w > 0.0 && r * w > 0.0
    ensures r > 0.0
  {
  }

  /** The move of an expression along its tangent, for a step within a radius r. */
  lemma MoveWithin(e: Expr, x: Vec, u: Vec, f: ExpFn, s: real, c: real, h: real, l: real, r: real)
    requires |u| == |x| && StepAlong(e, x, u, f, s, c, h) && Abs(h) <= 1.0 && Abs(h) <= r && c >= 0.0 && -l <= s <= l
    ensures -Times(l + c, r) <= Move(e, x, u, f, h) <= Times(l + c, r)
  {
    Magnitude(h);
    MoveBound(Move(e, x, u, f, h), h, s, Abs(h), c, l);
    Widen(l + c, Abs(h), r);
  }

  lemma Widen(l: real, n: real, r: real)
    requires l >= 0.0 && n <= r
    ensures Times(l, n) <= Times(l, r)
  {
    NonNegative(l, r - n);
    assert l * (r - n) == l * r - l * n;
  }

  // ---- each operation has a tangent ---------------------------------------------------------------------------

  lemma AddTangent(a: Expr, b: Expr, x: Vec, u: Vec, f: ExpFn, sa: real, ca: real, ra: real, sb: real, cb: real,
                   rb: real)
    requires |u| == |x| && TangentAlong(a, x, u, f, sa, ca, ra) && TangentAlong(b, x, u, f, sb, cb, rb)
    ensures TangentAlong(Add(a, b), x, u, f, Mix(1.0, sa, 1.0, sb), ca + cb, Min(ra, rb))
    ensures TangentAlong(Sub(a, b), x, u, f, Mix(1.0, sa, -1.0, sb), ca + cb, Min(ra, rb))
  {
    forall h | Abs(h) <= Min(ra, rb)
      ensures StepAlong(Add(a, b), x, u, f, Mix(1.0, sa, 1.0, sb), ca + cb, h)
      ensures StepAlong(Sub(a, b), x, u, f, Mix(1.0, sa, -1.0, sb), ca + cb, h)
    {
      AddStep(a, b, x, u, f, sa, ca, sb, cb, h);
    }
  }

  lemma MulTangent(a: Expr, b: Expr, x: Vec, u: Vec, f: ExpFn, sa: real, ca: real, ra: real, sb: real, cb: real,
                   rb: real) returns (c: real)
    requires |u| == |x| && TangentAlong(a, x, u, f, sa, ca, ra) && TangentAlong(b, x, u, f, sb, cb, rb)
    ensures TangentAlong(Mul(a, b), x, u, f, Mix(Value(b, x, f), sa, Value(a, x, f), sb), c, Min(ra, rb))
  {
    var p, q := Value(a, x, f), Value(b, x, f);
    var pa := Size(p);
    var la := Size(sa);
    var pb := Size(q);
    var lb := Size(sb);
    c := MulConstant(pa, la, ca, pb, lb, cb);
    forall h | Abs(h) <= Min(ra, rb) ensures StepAlong(Mul(a, b), x, u, f, Mix(q, sa, p, sb), c, h) {
      MulStep(a, b, x, u, f, sa, ca, sb, cb, h, pa, la, pb, lb);
    }
  }

  /** The constant of a product's tangent. */
  lemma MulConstant(pa: real, la: real, ca: real, pb: real, lb: real, cb: real) returns (c: real)
    requires ca >= 0.0 && cb >= 0.0 && pa >= 0.0 && la >= 0.0 && pb >= 0.0 && lb >= 0.0
    ensures c >= 0.0 && c == ProductBound(pa, la, ca, pb, lb, cb)
  {
    c := ProductBound(pa, la, ca, pb, lb, cb);
    NonNegative(ca, pb);
    NonNegative(cb, pa);
    NonNegative(la + ca, lb + cb);
  }

  lemma Size(p: real) returns (s: real)
    ensures -s <= p <= s && s >= 0.0
  {
    s := Abs(p);
  }

  /** The constant of a quotient's tangent. */
  lemma DivConstant(ca: real, cb: real, pq: real, ls: real, lb: real, m: real) returns (c: real)
    requires ca >= 0.0 && cb >= 0.0 && pq >= 0.0 && ls >= 0.0 && lb >= 0.0 && m > 0.0
    ensures c >= 0.0 && Times(c, m) == 2.0 * (ca + Times(cb, pq) + Times(ls, lb + cb))
  {
    NonNegative(cb, pq);
    NonNegative(ls, lb + cb);
    c := 2.0 * (ca + Times(cb, pq) + Times(ls, lb + cb)) / m;
  }

  lemma DivTangent(a: Expr, b: Expr, x: Vec, u: Vec, f: ExpFn, sa: real, ca: real, ra: real, sb: real, cb: real,
                   rb: real) returns (c: real, r: real)
    requires |u| == |x| && TangentAlong(a, x, u, f, sa, ca, ra) && TangentAlong(b, x, u, f, sb, cb, rb)
    requires Value(b, x, f) != 0.0
    ensures TangentAlong(Div(a, b), x, u, f,
                         Mix(NumFactor(Value(b, x, f)), sa, DenFactor(Value(a, x, f), Value(b, x, f)), sb), c, r)
  {
    var p, q := Value(a, x, f), Value(b, x, f);
    var s, q0 := Mix(NumFactor(q), sa, DenFactor(p, q), sb), Quot(p, q);
    Magnitude(q0);
    Magnitude(s);
    Magnitude(sb);
    c := DivConstant(ca, cb, Abs(q0), Abs(s), Abs(sb), Abs(q));
    var near := Radius(Abs(q), Abs(sb) + cb);
    r := Min(near, Min(ra, rb));
    Widen(Abs(sb) + cb, r, near);
    forall h | Abs(h) <= r ensures StepAlong(Div(a, b), x, u, f, s, c, h) {
      assert StepAlong(b, x, u, f, sb, cb, h);
      MoveWithin(b, x, u, f, sb, cb, h, Abs(sb), r);
      DivStep(a, b, x, u, f, sa, ca, sb, cb, h, s, Abs(q0), Abs(s), Abs(sb), Abs(q), c);
    }
  }

  lemma OwnDerivativeStep(f: ExpFn, v: real, c: real, r: real, w: real)
    requires OwnDerivativeAt(f, v, c, r) && -r <= w - v <= r
    ensures -Times(c, Times(w - v, w - v)) <= f(w) - f(v) - Times(w - v, f(v)) <= Times(c, Times(w - v, w - v))
  {
  }

  lemma ExpStep(a: Expr, x: Vec, u: Vec, f: ExpFn, sa: real, ca: real, h: real, v: real, w: real, cf: real, la: real,
                lf: real)
    requires |u| == |x| && StepAlong(a, x, u, f, sa, ca, h) && Abs(h) <= 1.0 && ca >= 0.0 && cf >= 0.0
    requires v == Value(a, x, f) && w == Value(a, Moved(x, u, h), f)
    requires -Times(cf, Times(w - v, w - v)) <= f(w) - f(v) - Times(w - v, f(v)) <= Times(cf, Times(w - v, w - v))
    requires -la <= sa <= la && -lf <= f(v) <= lf
    ensures StepAlong(Exp(a), x, u, f, Times(f(v), sa), Times(ca, lf) + Times(cf, Times(la + ca, la + ca)), h)
  {
    Magnitude(h);
    ExpTangent(f(v), f(w) - f(v), w - v, sa, h, Abs(h), ca, cf, la, lf);
  }

  lemma ExpTangentOf(a: Expr, x: Vec, u: Vec, f: ExpFn, sa: real, ca: real, ra: real) returns (c: real, r: real)
    requires |u| == |x| && TangentAlong(a, x, u, f, sa, ca, ra) && OwnDerivative(f)
    ensures TangentAlong(Exp(a), x, u, f, Times(f(Value(a, x, f)), sa), c, r)
  {
    assert OwnDerivativeNear(f, Value(a, x, f));
    var cf, rf :| OwnDerivativeAt(f, Value(a, x, f), cf, rf);
    var la := Size(sa);
    var lf := Size(f(Value(a, x, f)));
    var near := Radius(rf, la + ca);
    r := Min(near, ra);
    Widen(la + ca, r, near);
    c := ExpConstant(ca, lf, cf, la);
    var v := Value(a, x, f);
    forall h | Abs(h) <= r ensures StepAlong(Exp(a), x, u, f, Times(f(v), sa), c, h) {
      MoveWithin(a, x, u, f, sa, ca, h, la, r);
      var w := Value(a, Moved(x, u, h), f);
      OwnDerivativeStep(f, v, cf, rf, w);
      ExpStep(a, x, u, f, sa, ca, h, v, w, cf, la, lf);
    }
  }

  /** The constant of an exponential's tangent. */
  lemma ExpConstant(ca: real, lf: real, cf: real, la: real) returns (c: real)
    requires ca >= 0.0 && lf >= 0.0 && cf >= 0.0 && la >= 0.0
    ensures c >= 0.0 && c == Times(ca, lf) + Times(cf, Times(la + ca, la + ca))
  {
    c := Times(ca, lf) + Times(cf, Times(la + ca, la + ca));
    NonNegative(ca, lf);
    NonNegative(la + ca, la + ca);
    NonNegative(cf, Times(la + ca, la + ca));
  }

  // ---- the theorem --------------------------------------------------------------------------------------------

  /** A gradient that is a mix of two, dotted with a direction. */
  lemma AlongMix(u: Vec, e: Expr, c: real, a: Expr, d: real, b: Expr, x: Vec, f: ExpFn)
    requires |u| == |x|
    requires forall j :: 0 <= j < |x| ==> Partial(e, j, x, f) == Mix(c, Partial(a, j, x, f), d, Partial(b, j, x, f))
    ensures Dot(u, Gradient(e, x, f)) == Mix(c, Dot(u, Gradient(a, x, f)), d, Dot(u, Gradient(b, x, f)))
  {
    DotMix(u, c, Gradient(a, x, f), d, Gradient(b, x, f), Gradient(e, x, f));
  }

  lemma AlongSum(u: Vec, a: Expr, b: Expr, x: Vec, f: ExpFn)
    requires |u| == |x|
    ensures Dot(u, Gradient(Add(a, b), x, f)) ==
            Mix(1.0, Dot(u, Gradient(a, x, f)), 1.0, Dot(u, Gradient(b, x, f)))
    ensures Dot(u, Gradient(Sub(a, b), x, f)) ==
            Mix(1.0, Dot(u, Gradient(a, x, f)), -1.0, Dot(u, Gradient(b, x, f)))
  {
    forall j | 0 <= j < |x|
      ensures Partial(Add(a, b), j, x, f) == Mix(1.0, Partial(a, j, x, f), 1.0, Partial(b, j, x, f))
      ensures Partial(Sub(a, b), j, x, f) == Mix(1.0, Partial(a, j, x, f), -1.0, Partial(b, j, x, f))
    {
      AddPartial(a, b, j, x, f);
    }
    AlongMix(u, Add(a, b), 1.0, a, 1.0, b, x, f);
    AlongMix(u, Sub(a, b), 1.0, a, -1.0, b, x, f);
  }

  lemma AlongProduct(u: Vec, a: Expr, b: Expr, x: Vec, f: ExpFn)
    requires |u| == |x|
    ensures Dot(u, Gradient(Mul(a, b), x, f)) ==
            Mix(Value(b, x, f), Dot(u, Gradient(a, x, f)), Value(a, x, f), Dot(u, Gradient(b, x, f)))
  {
    var m, n := Value(b, x, f), Value(a, x, f);
    forall j | 0 <= j < |x| ensures Partial(Mul(a, b), j, x, f) == Mix(m, Partial(a, j, x, f), n, Partial(b, j, x, f)) {
      MulPartial(a, b, j, x, f);
    }
    AlongMix(u, Mul(a, b), m, a, n, b, x, f);
  }

  lemma AlongQuotient(u: Vec, a: Expr, b: Expr, x: Vec, f: ExpFn)
    requires |u| == |x|
    ensures Dot(u, Gradient(Div(a, b), x, f)) ==
            Mix(NumFactor(Value(b, x, f)), Dot(u, Gradient(a, x, f)),
                DenFactor(Value(a, x, f), Value(b, x, f)), Dot(u, Gradient(b, x, f)))
  {
    var m, n := NumFactor(Value(b, x, f)), DenFactor(Value(a, x, f), Value(b, x, f));
    forall j | 0 <= j < |x| ensures Partial(Div(a, b), j, x, f) == Mix(m, Partial(a, j, x, f), n, Partial(b, j, x, f)) {
      DivPartial(a, b, j, x, f);
    }
    AlongMix(u, Div(a, b), m, a, n, b, x, f);
  }

  lemma AlongExp(u: Vec, a: Expr, x: Vec, f: ExpFn)
    requires |u| == |x|
    ensures Dot(u, Gradient(Exp(a), x, f)) == Times(f(Value(a, x, f)), Dot(u, Gradient(a, x, f)))
  {
    var m := f(Value(a, x, f));
    forall j | 0 <= j < |x| ensures Partial(Exp(a), j, x, f) == Mix(m, Partial(a, j, x, f), 0.0, Partial(a, j, x, f)) {
      ExpPartial(a, j, x, f);
      MixZero(m, Partial(a, j, x, f), Partial(a, j, x, f));
    }
    AlongMix(u, Exp(a), m, a, 0.0, a, x, f);
    MixZero(m, Dot(u, Gradient(a, x, f)), Dot(u, Gradient(a, x, f)));
  }

  lemma MixZero(c: real, p: real, q: real)
    ensures Mix(c, p, 0.0, q) == Mix(c, p, 0.0, 0.0) == Times(c, p)
  {
  }

  lemma {:induction false} HasTangent(e: Expr, x: Vec, u: Vec, f: ExpFn) returns (c: real, r: real)
    requires |u| == |x| && Defined(e, x, f) && OwnDerivative(f)
    ensures TangentAlong(e, x, u, f, Dot(u, Gradient(e, x, f)), c, r)
    decreases e
  {
    match e
    case Const(_) =>
      DotZero(u, Gradient(e, x, f));
      c, r := FlatTangent(e, x, u, f, 0.0);
    case Knot(i) =>
      DotUnit(u, Gradient(e, x, f), i);
      c, r := FlatTangent(e, x, u, f, u[i]);
    case Exp(a) =>
      c, r := HasTangent(a, x, u, f);
      AlongExp(u, a, x, f);
      c, r := ExpTangentOf(a, x, u, f, Dot(u, Gradient(a, x, f)), c, r);
    case Add(a, b) => c, r := PairTangent(e, a, b, x, u, f);
    case Sub(a, b) => c, r := PairTangent(e, a, b, x, u, f);
    case Mul(a, b) => c, r := PairTangent(e, a, b, x, u, f);
    case Div(a, b) => c, r := PairTangent(e, a, b, x, u, f);
  }

  lemma {:induction false} PairTangent(e: Expr, a: Expr, b: Expr, x: Vec, u: Vec, f: ExpFn) returns (c: real, r: real)
    requires |u| == |x| && Defined(e, x, f) && OwnDerivative(f)
    requires e == Add(a, b) || e == Sub(a, b) || e == Mul(a, b) || e == Div(a, b)
    ensures TangentAlong(e, x, u, f, Dot(u, Gradient(e, x, f)), c, r)
    decreases e, 0
  {
    var sa, sb := Dot(u, Gradient(a, x, f)), Dot(u, Gradient(b, x, f));
    var ca, ra := HasTangent(a, x, u, f);
    var cb, rb := HasTangent(b, x, u, f);
    if e.Add? || e.Sub? {
      AlongSum(u, a, b, x, f);
      AddTangent(a, b, x, u, f, sa, ca, ra, sb, cb, rb);
      c, r := ca + cb, Min(ra, rb);
    } else if e.Mul? {
      AlongProduct(u, a, b, x, f);
      c := MulTangent(a, b, x, u, f, sa, ca, ra, sb, cb, rb);
      r := Min(ra, rb);
    } else {
      AlongQuotient(u, a, b, x, f);
      c, r := DivTangent(a, b, x, u, f, sa, ca, ra, sb, cb, rb);
    }
  }

  /** A value that moves exactly h s has a tangent with constant zero. */
  lemma FlatTangent(e: Expr, x: Vec, u: Vec, f: ExpFn, s: real) returns (c: real, r: real)
    requires |u| == |x| && ((e.Const? && s == 0.0) || (e.Knot? && e.i < |x| && s == u[e.i]))
    ensures TangentAlong(e, x, u, f, s, c, r)
  {
    c, r := 0.0, 1.0;
  }

  /** At y the expression is defined, and has moved h s from its value at x, to within c h h. */
  ghost predicate NearTangent(e: Expr, x: Vec, y: Vec, f: ExpFn, h: real, s: real, c: real) {
    Defined(e, y, f) && -(c * (h * h)) <= Value(e, y, f) - Value(e, x, f) - h * s <= c * (h * h)
  }

  lemma StepIsNear(e: Expr, x: Vec, u: Vec, f: ExpFn, s: real, c: real, h: real)
    requires |u| == |x| && StepAlong(e, x, u, f, s, c, h)
    ensures NearTangent(e, x, Moved(x, u, h), f, h, s, c)
  {
    assert Times(c, Times(Abs(h), Abs(h))) == c * (h * h) by {
      assert Abs(h) * Abs(h) == h * h;
    }
  }

  /** The gradient is the value's derivative, in every direction: there are a constant c and a radius r such that every
      step h of size at most r along u keeps the expression defined and moves its value by h times the gradient dotted
      with u, to within c h h. The exponential is assumed to be its own derivative in the same sense. */
  lemma GradientIsDerivative(e: Expr, x: Vec, u: Vec, f: ExpFn) returns (c: real, r: real)
    requires |u| == |x| && Defined(e, x, f) && OwnDerivative(f)
    ensures r > 0.0
    ensures forall h :: Abs(h) <= r ==> NearTangent(e, x, Moved(x, u, h), f, h, Dot(u, Gradient(e, x, f)), c)
  {
    c, r := HasTangent(e, x, u, f);
    var s := Dot(u, Gradient(e, x, f));
    forall h | Abs(h) <= r ensures NearTangent(e, x, Moved(x, u, h), f, h, s, c) {
      StepIsNear(e, x, u, f, s, c, h);
    }
  }

  /** One knot moved alone: the partial in that knot is the value's derivative. */
  lemma PartialIsDerivative(e: Expr, x: Vec, j: nat, f: ExpFn) returns (c: real, r: real)
    requires j < |x| && Defined(e, x, f) && OwnDerivative(f)
    ensures r > 0.0
    ensures forall h :: Abs(h) <= r ==> NearTangent(e, x, x[j := x[j] + h], f, h, Partial(e, j, x, f), c)
  {
    var u := Unit(|x|, j);
    DotUnit(Gradient(e, x, f), u, j);
    c, r := GradientIsDerivative(e, x, u, f);
    forall h | Abs(h) <= r ensures NearTangent(e, x, x[j := x[j] + h], f, h, Partial(e, j, x, f), c) {
      assert Moved(x, u, h) == x[j := x[j] + h];
    }
  }
}
