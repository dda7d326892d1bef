/** The street price of a bond as a function of its yield, over exact reals, and what Newton's method does to it.

    `pow` is an arbitrary real power function; `PowLaws` collects what is assumed of it. */
module BondMath {

  type PowFn = (real, real) -> real

  /** v to an integer power, by repeated multiplication. */
  function Power(v: real, k: nat): real {
    if k == 0 then 1.0 else v * Power(v, k - 1)
  }

  /** The tangent at 0 of d -> (1 + d)^-e. */
  function Tangent(e: real, d: real): real {
    1.0 - e * d
  }

  /** u^-(w+k) is (1/u)^w times an integer power. */
  ghost predicate Splits(pow: PowFn, u: real, w: real, k: nat) {
    u > 0.0 ==> pow(u, -(w + k as real)) == pow(1.0 / u, w) * Power(1.0 / u, k)
  }

  /** u -> u^-w lies above its tangent at u0, for an exponent of at most one. */
  ghost predicate AboveTangent(pow: PowFn, u: real, u0: real, w: real) {
    u > 0.0 && u0 > 0.0 && 0.0 <= w <= 1.0 ==> pow(1.0 / u, w) >= pow(1.0 / u0, w) * Tangent(w, (u - u0) / u0)
  }

  /** The assumed laws of `pow` on positive bases. */
  ghost predicate PowLaws(pow: PowFn) {
    && (forall u: real, w: real :: u > 0.0 ==> pow(u, w) > 0.0)
    && (forall u: real, w: real, k: nat :: Splits(pow, u, w, k))
    && (forall u: real, u0: real, w: real :: AboveTangent(pow, u, u0, w))
  }

  /** A bond: the current-period fraction and its cashflows. Flow k falls at exponent w + k. */
  datatype Bond = Bond(w: real, flows: seq<real>)

  /** Non-negative flows, the last one a redemption, the first within a coupon period. */
  ghost predicate Regular(b: Bond) {
    && 0.0 < b.w <= 1.0 && b.flows != [] && b.flows[|b.flows| - 1] > 0.0
    && forall k :: 0 <= k < |b.flows| ==> b.flows[k] >= 0.0
  }

  function Base(y: real): real {
    1.0 + y / 2.0
  }

  // ---- the reference: one power per cashflow --------------------------------------------------------------

  function Term(pow: PowFn, b: Bond, y: real, k: nat): real
    requires k < |b.flows|
  {
    b.flows[k] * pow(Base(y), -(b.w + k as real))
  }

  /** The first n flows' price and its derivative in y, term by term. */
  function PriceTo(pow: PowFn, b: Bond, y: real, n: nat): real
    requires n <= |b.flows|
  {
    if n == 0 then 0.0 else PriceTo(pow, b, y, n - 1) + Term(pow, b, y, n - 1)
  }

  /** One cashflow's share of the derivative in y. */
  function SlopeTerm(ex: real, term: real, base: real): real
    requires base != 0.0
  {
    -(ex / 2.0) * term / base
  }

  function SlopeTo(pow: PowFn, b: Bond, y: real, n: nat): real
    requires n <= |b.flows| && Base(y) != 0.0
  {
    if n == 0 then 0.0
    else SlopeTo(pow, b, y, n - 1) + SlopeTerm(b.w + (n - 1) as real, Term(pow, b, y, n - 1), Base(y))
  }

  function Price(pow: PowFn, b: Bond, y: real): real {
    PriceTo(pow, b, y, |b.flows|)
  }

  function Slope(pow: PowFn, b: Bond, y: real): real
    requires Base(y) != 0.0
  {
    SlopeTo(pow, b, y, |b.flows|)
  }

  // ---- the fast form: Horner with synthetic differentiation ------------------------------------------------

  /** The cashflow polynomial, its derivative and half its second derivative, as sums of monomials c x p. */
  function Mono(c: real, x: real, p: real): real {
    c * x * p
  }

  function Poly(a: seq<real>, v: real, n: nat): real
    requires n <= |a|
  {
    if n == 0 then 0.0 else Poly(a, v, n - 1) + Mono(1.0, a[n - 1], Power(v, n - 1))
  }

  function PolyD(a: seq<real>, v: real, n: nat): real
    requires n <= |a|
  {
    if n <= 1 then 0.0 else PolyD(a, v, n - 1) + Mono((n - 1) as real, a[n - 1], Power(v, n - 2))
  }

  /** n (n - 1) / 2, the factor of half a second derivative. */
  function Pairs(n: nat): real {
    (n * (n - 1)) as real / 2.0
  }

  function PolyDD(a: seq<real>, v: real, n: nat): real
    requires n <= |a|
  {
    if n <= 2 then 0.0 else PolyDD(a, v, n - 1) + Mono(Pairs(n - 1), a[n - 1], Power(v, n - 3))
  }

  /** The sweep's one step. */
  function Fma(r: real, v: real, c: real): real {
    r * v + c
  }

  /** What the column sweep has accumulated once columns |a| - 1 down to 0 of `a` are absorbed. */
  function Horner(a: seq<real>, v: real): real {
    if a == [] then 0.0 else Fma(Horner(a[1..], v), v, a[0])
  }

  function HornerD(a: seq<real>, v: real): real {
    if a == [] then 0.0 else Fma(HornerD(a[1..], v), v, Horner(a[1..], v))
  }

  function HornerDD(a: seq<real>, v: real): real {
    if a == [] then 0.0 else Fma(HornerDD(a[1..], v), v, HornerD(a[1..], v))
  }

  /** One Horner step on a sum: (r + c x p) v = r v + c x (v p). */
  lemma Slide(rn: real, r: real, c: real, x: real, p: real, pv: real, v: real, a: real, b: real)
    requires rn == r + Mono(c, x, p) && pv == v * p
    ensures Fma(rn, v, a + b) == Fma(r, v, a) + (Mono(c, x, pv) + b)
  {
    var cx := c * x;
    assert rn * v == r * v + cx * p * v;
    assert cx * p * v == cx * pv;
  }

  /** Absorbing one more flow at the far end adds its power to each accumulator. */
  lemma {:induction false} HornerAppend(a: seq<real>, x: real, v: real)
    ensures Horner(a + [x], v) == Horner(a, v) + Mono(1.0, x, Power(v, |a|))
  {
    if a == [] {
      assert a + [x] == [x] && [x][1..] == [];
    } else {
      var t := a[1..];
      assert (a + [x])[1..] == t + [x];
      HornerAppend(t, x, v);
      Slide(Horner(t + [x], v), Horner(t, v), 1.0, x, Power(v, |t|), Power(v, |a|), v, a[0], 0.0);
    }
  }

  lemma {:induction false} HornerDAppend(a: seq<real>, x: real, v: real)
    ensures HornerD(a + [x], v) == HornerD(a, v) + (if |a| == 0 then 0.0 else Mono(|a| as real, x, Power(v, |a| - 1)))
  {
    if a == [] {
      assert a + [x] == [x] && [x][1..] == [];
    } else {
      var m, t := |a|, a[1..];
      assert (a + [x])[1..] == t + [x];
      HornerDAppend(t, x, v);
      HornerAppend(t, x, v);
      var p := Power(v, m - 1);
      Split(m, x, p);
      if m >= 2 {
        Slide(HornerD(t + [x], v), HornerD(t, v), (m - 1) as real, x, Power(v, m - 2), p, v, Horner(t, v),
              Mono(1.0, x, p));
      }
    }
  }

  lemma {:induction false} HornerDDAppend(a: seq<real>, x: real, v: real)
    ensures HornerDD(a + [x], v) == HornerDD(a, v) + (if |a| <= 1 then 0.0 else Mono(Pairs(|a|), x, Power(v, |a| - 2)))
  {
    if a == [] {
      assert a + [x] == [x] && [x][1..] == [];
    } else {
      var m, t := |a|, a[1..];
      assert (a + [x])[1..] == t + [x];
      HornerDDAppend(t, x, v);
      HornerDAppend(t, x, v);
      if m >= 2 {
        var p := Power(v, m - 2);
        SplitPairs(m, x, p);
        if m >= 3 {
          Slide(HornerDD(t + [x], v), HornerDD(t, v), Pairs(m - 1), x, Power(v, m - 3), p, v, HornerD(t, v),
                Mono((m - 1) as real, x, p));
        }
      }
    }
  }

  lemma Split(m: nat, x: real, p: real)
    requires m >= 1
    ensures Mono(m as real, x, p) == Mono((m - 1) as real, x, p) + Mono(1.0, x, p)
  {
    var e := (m - 1) as real;
    assert m as real * x == e * x + x;
    var f := e * x;
    assert (f + x) * p == f * p + x * p;
  }

  lemma SplitPairs(m: nat, x: real, p: real)
    requires m >= 2
    ensures Mono(Pairs(m), x, p) == Mono(Pairs(m - 1), x, p) + Mono((m - 1) as real, x, p)
  {
    assert m * (m - 1) == (m - 1) * (m - 2) + 2 * (m - 1);
    var c, d, e := Pairs(m), Pairs(m - 1), (m - 1) as real;
    assert c == d + e;
    assert c * x == d * x + e * x;
    var f, g := d * x, e * x;
    assert (f + g) * p == f * p + g * p;
  }

  /** The sweep's three accumulators are the polynomial, its derivative and half its second derivative. */
  lemma {:induction false} HornerIsPoly(a: seq<real>, v: real, n: nat)
    requires n <= |a|
    ensures Horner(a[..n], v) == Poly(a, v, n)
    ensures HornerD(a[..n], v) == PolyD(a, v, n)
    ensures HornerDD(a[..n], v) == PolyDD(a, v, n)
  {
    if n == 0 {
      assert a[..n] == [];
    } else {
      HornerIsPoly(a, v, n - 1);
      assert a[..n] == a[..n - 1] + [a[n - 1]];
      HornerAppend(a[..n - 1], a[n - 1], v);
      HornerDAppend(a[..n - 1], a[n - 1], v);
      HornerDDAppend(a[..n - 1], a[n - 1], v);
    }
  }

  /** Zero padding beyond the last flow changes none of them. */
  lemma {:induction false} PaddingIsHarmless(a: seq<real>, zeros: seq<real>, v: real)
    requires forall i :: 0 <= i < |zeros| ==> zeros[i] == 0.0
    ensures Horner(a + zeros, v) == Horner(a, v)
    ensures HornerD(a + zeros, v) == HornerD(a, v)
    ensures HornerDD(a + zeros, v) == HornerDD(a, v)
    decreases |zeros|
  {
    if zeros == [] {
      assert a + zeros == a;
    } else {
      var n := |zeros| - 1;
      PaddingIsHarmless(a, zeros[..n], v);
      assert a + zeros == (a + zeros[..n]) + [0.0];
      HornerAppend(a + zeros[..n], 0.0, v);
      HornerDAppend(a + zeros[..n], 0.0, v);
      HornerDDAppend(a + zeros[..n], 0.0, v);
    }
  }

  // ---- the fast form is the reference ---------------------------------------------------------------------

  /** The fast form's price and slope from its accumulators: one power per bond, then the chain rule v -> y. */
  function FastPrice(vw: real, q: real): real {
    vw * q
  }

  function FastSlope(vw: real, w: real, q: real, dq: real, v: real): real
    requires v != 0.0
  {
    vw * (w * q / v + dq) * (-(v * v) / 2.0)
  }

  /** The same slope without the division: the common factor pulled out. */
  function ClosedSlope(vw: real, w: real, q: real, dq: real, v: real): real {
    -(v / 2.0) * vw * (w * q + v * dq)
  }

  lemma TermIsPower(pow: PowFn, b: Bond, y: real, k: nat)
    requires PowLaws(pow) && Base(y) > 0.0 && k < |b.flows|
    ensures Term(pow, b, y, k) == FastPrice(pow(1.0 / Base(y), b.w), Mono(1.0, b.flows[k], Power(1.0 / Base(y), k)))
  {
    var vw, p, a := pow(1.0 / Base(y), b.w), Power(1.0 / Base(y), k), b.flows[k];
    assert Splits(pow, Base(y), b.w, k);
    assert a * (vw * p) == vw * (1.0 * a * p);
  }

  lemma {:induction false} PriceIsPoly(pow: PowFn, b: Bond, y: real, n: nat)
    requires PowLaws(pow) && Base(y) > 0.0 && n <= |b.flows|
    ensures PriceTo(pow, b, y, n) == FastPrice(pow(1.0 / Base(y), b.w), Poly(b.flows, 1.0 / Base(y), n))
  {
    if n > 0 {
      PriceIsPoly(pow, b, y, n - 1);
      TermIsPower(pow, b, y, n - 1);
    }
  }

  /** One term of the slope, rewritten: -(w + k)/2 a vw p / u, with p = v p' for k >= 1. */
  lemma SlopeStep(vw: real, w: real, k: real, a: real, v: real, u: real, p: real, p': real, sum: real, sumD: real)
    requires u != 0.0 && v == 1.0 / u
    requires k == 0.0 || p == v * p'
    ensures ClosedSlope(vw, w, sum, sumD, v) + SlopeTerm(w + k, FastPrice(vw, Mono(1.0, a, p)), u) ==
            ClosedSlope(vw, w, sum + Mono(1.0, a, p), sumD + Mono(k, a, p'), v)
  {
    var e, c := w + k, -(v / 2.0) * vw;
    var ap, kap := Mono(1.0, a, p), Mono(k, a, p');
    assert SlopeTerm(e, vw * ap, u) == c * (e * ap) by {
      var z := -(e / 2.0) * (vw * ap);
      assert z / u == z * v;
      assert -(e / 2.0) * (vw * ap) * v == -(v / 2.0) * vw * (e * ap);
    }
    assert k * ap == v * kap by {
      if k != 0.0 {
        assert ap == a * p;
        assert k * (a * (v * p')) == v * (k * a * p');
      }
    }
    assert e * ap == w * ap + v * kap;
    Distribute(c, w, sum, ap, v, sumD, kap);
  }

  lemma Distribute(c: real, w: real, s: real, x: real, v: real, d: real, z: real)
    ensures c * (w * s + v * d) + c * (w * x + v * z) == c * (w * (s + x) + v * (d + z))
  {
    assert w * (s + x) == w * s + w * x;
    assert v * (d + z) == v * d + v * z;
  }

  lemma {:induction false} SlopeIsPoly(pow: PowFn, b: Bond, y: real, n: nat)
    requires PowLaws(pow) && Base(y) > 0.0 && n <= |b.flows|
    ensures var v := 1.0 / Base(y);
            SlopeTo(pow, b, y, n) == ClosedSlope(pow(v, b.w), b.w, Poly(b.flows, v, n), PolyD(b.flows, v, n), v)
  {
    if n > 0 {
      SlopeIsPoly(pow, b, y, n - 1);
      TermIsPower(pow, b, y, n - 1);
      var v, k := 1.0 / Base(y), (n - 1) as real;
      var p' := if n >= 2 then Power(v, n - 2) else 0.0;
      SlopeStep(pow(v, b.w), b.w, k, b.flows[n - 1], v, Base(y), Power(v, n - 1), p', Poly(b.flows, v, n - 1),
                PolyD(b.flows, v, n - 1));
      if n == 1 {
        assert Mono(0.0, b.flows[0], p') == 0.0;
      }
    }
  }

  lemma ChainRule(vw: real, w: real, q: real, dq: real, v: real)
    requires v != 0.0
    ensures FastSlope(vw, w, q, dq, v) == ClosedSlope(vw, w, q, dq, v)
  {
    var r := w * q / v;
    assert r * v == w * q;
    assert (r + dq) * (v * v) == v * (r * v + v * dq);
  }

  /** One power and one Horner sweep price the bond, and differentiate it, exactly as one power per cashflow does. */
  lemma FastFormIsReference(pow: PowFn, b: Bond, y: real)
    requires PowLaws(pow) && Base(y) > 0.0
    ensures var v := 1.0 / Base(y);
            && v != 0.0
            && FastPrice(pow(v, b.w), Horner(b.flows, v)) == Price(pow, b, y)
            && FastSlope(pow(v, b.w), b.w, Horner(b.flows, v), HornerD(b.flows, v), v) == Slope(pow, b, y)
  {
    var v, n := 1.0 / Base(y), |b.flows|;
    assert b.flows[..n] == b.flows;
    HornerIsPoly(b.flows, v, n);
    PriceIsPoly(pow, b, y, n);
    SlopeIsPoly(pow, b, y, n);
    ChainRule(pow(v, b.w), b.w, Horner(b.flows, v), HornerD(b.flows, v), v);
  }
}
