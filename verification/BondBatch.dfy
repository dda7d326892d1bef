/** The two evaluation orders of tools/bond_lever_bench.cpp: per bond with a power per cashflow, and per cashflow column
    across all bonds, in place, with one power per bond. */
module BondBatch {
  import opened BondMath
  import opened BondNewton
  import opened Wrappers

  // ---- the universe ---------------------------------------------------------------------------------------

  /** Where bond b's flow k sits in the column-major matrix. */
  function At(B: nat, b: nat, k: nat): nat {
    k * B + b
  }

  lemma {:induction false} ColumnsBefore(k: nat, l: nat, B: nat)
    requires k < l
    ensures k * B + B <= l * B
    decreases l
  {
    assert l * B == (l - 1) * B + B;
    if k < l - 1 {
      ColumnsBefore(k, l - 1, B);
    }
  }

  lemma AtInRange(B: nat, K: nat, b: nat, k: nat)
    requires b < B && k < K
    ensures At(B, b, k) < K * B
  {
    ColumnsBefore(k, K, B);
  }

  lemma AtInjective(B: nat, b: nat, k: nat, c: nat, l: nat)
    requires b < B && c < B && At(B, b, k) == At(B, c, l)
    ensures b == c && k == l
  {
    if k < l {
      ColumnsBefore(k, l, B);
    } else if l < k {
      ColumnsBefore(l, k, B);
    }
  }

  function Padded(b: Bond, k: nat): real {
    if k < |b.flows| then b.flows[k] else 0.0
  }

  /** The padded row of one bond. */
  function Row(b: Bond, K: nat): (r: seq<real>)
    ensures |r| == K
  {
    seq(K, k requires k >= 0 => Padded(b, k))
  }

  /** The universe: its bonds, and their flows and exponents in two zero-padded column-major B x K matrices. */
  class Universe {
    const bonds: seq<Bond>
    const B: nat
    const K: nat
    const A: array<real>
    const E: array<real>

    ghost predicate Valid()
      reads A, E
    {
      && B == |bonds| && A != E && A.Length == K * B && E.Length == K * B
      && (forall b :: 0 <= b < B ==> |bonds[b].flows| <= K)
      && (forall b: nat, k: nat :: b < B && k < K ==> Holds(A, E, bonds, b, k))
    }

    constructor (bonds: seq<Bond>)
      ensures Valid() && this.bonds == bonds && fresh(A) && fresh(E)
    {
      var count, widest := |bonds|, 0;
      for b := 0 to count
        invariant 0 <= widest && forall c :: 0 <= c < b ==> |bonds[c].flows| <= widest
      {
        widest := if |bonds[b].flows| > widest then |bonds[b].flows| else widest;
      }
      var m, e := new real[widest * count](_ => 0.0), new real[widest * count](_ => 0.0);
      this.bonds, B, K, A, E := bonds, count, widest, m, e;
      new;
      Fill(m, e, bonds, widest);
    }
  }

  function Exponent(b: Bond, k: nat): real {
    if k < |b.flows| then b.w + k as real else 0.0
  }

  /** Flow k of bond b and its exponent stand at their place. */
  ghost predicate Holds(m: array<real>, e: array<real>, bonds: seq<Bond>, b: nat, k: nat)
    requires b < |bonds|
    reads m, e
  {
    var at := At(|bonds|, b, k);
    at < m.Length == e.Length && m[at] == Padded(bonds[b], k) && e[at] == Exponent(bonds[b], k)
  }

  /** Writes every flow and exponent at its place; the padding keeps its zeros. */
  method Fill(m: array<real>, e: array<real>, bonds: seq<Bond>, K: nat)
    requires m != e && m.Length == e.Length == K * |bonds|
    requires forall i :: 0 <= i < m.Length ==> m[i] == 0.0 && e[i] == 0.0
    requires forall b :: 0 <= b < |bonds| ==> |bonds[b].flows| <= K
    modifies m, e
    ensures forall b: nat, k: nat :: b < |bonds| && k < K ==> Holds(m, e, bonds, b, k)
  {
    var B := |bonds|;
    forall b: nat, k: nat | b < B && k < K ensures At(B, b, k) < m.Length {
      AtInRange(B, K, b, k);
    }
    for b := 0 to B
      invariant forall c: nat, k: nat :: c < B && k < K ==>
        m[At(B, c, k)] == (if c < b then Padded(bonds[c], k) else 0.0) &&
        e[At(B, c, k)] == (if c < b then Exponent(bonds[c], k) else 0.0)
    {
      var n := |bonds[b].flows|;
      for k := 0 to n
        invariant forall c: nat, l: nat :: c < B && l < K ==>
          m[At(B, c, l)] == (if c < b || (c == b && l < k) then Padded(bonds[c], l) else 0.0) &&
          e[At(B, c, l)] == (if c < b || (c == b && l < k) then Exponent(bonds[c], l) else 0.0)
      {
        forall c: nat, l: nat | c < B && l < K && At(B, c, l) == At(B, b, k) ensures c == b && l == k {
          AtInjective(B, c, l, b, k);
        }
        m[At(B, b, k)] := bonds[b].flows[k];
        e[At(B, b, k)] := bonds[b].w + k as real;
      }
    }
  }

  // ---- bond-major -----------------------------------------------------------------------------------------

  method NaiveValue(pow: PowFn, u: Universe, b: nat, y: real) returns (p: real, d1: real)
    requires u.Valid() && b < u.B && Base(y) != 0.0
    ensures p == Price(pow, u.bonds[b], y) && d1 == Slope(pow, u.bonds[b], y)
  {
    var base := Base(y);
    p, d1 := 0.0, 0.0;
    var n := |u.bonds[b].flows|;
    for k := 0 to n
      invariant p == PriceTo(pow, u.bonds[b], y, k) && d1 == SlopeTo(pow, u.bonds[b], y, k)
    {
      assert Holds(u.A, u.E, u.bonds, b, k);
      var ex := u.E[At(u.B, b, k)];
      var t := u.A[At(u.B, b, k)] * pow(base, -ex);
      p := p + t;
      d1 := d1 + SlopeTerm(ex, t, base);
    }
  }

  /** The per-bond loop. A yield with no price gives no residual: the test is false of it, and so is every later one. */
  method ScalarNewton(pow: PowFn, u: Universe, b: nat, target: real, y0: Lane, tol: real, cap: nat)
    returns (y: Lane, n: nat)
    requires PowLaws(pow) && u.Valid() && b < u.B && Street(u.bonds[b])
    ensures StopsAt(pow, u.bonds[b], target, y0, tol, cap, n)
    ensures y == Trace(pow, u.bonds[b], target, y0, n)
  {
    y, n := y0, 0;
    while n < cap
      invariant n <= cap && y == Trace(pow, u.bonds[b], target, y0, n)
      invariant forall m: nat :: m < n ==> !Within(pow, u.bonds[b], target, Trace(pow, u.bonds[b], target, y0, m), tol)
    {
      var next: Lane := None;
      if Priced(y) {
        SlopeNegative(pow, u.bonds[b], y.value, |u.bonds[b].flows|);
        var p, d1 := NaiveValue(pow, u, b, y.value);
        var r := p - target;
        if -tol <= r <= tol {
          return;
        }
        next := Some(y.value - r / d1);
      }
      y, n := next, n + 1;
    }
  }

  // ---- cashflow-major -------------------------------------------------------------------------------------

  /** A lane's accumulators once columns k and up of its padded row are absorbed. */
  ghost predicate Absorbed(b: Bond, K: nat, k: nat, v: real, q: real, dq: real, ddq: real)
    requires k <= K
  {
    q == Horner(Row(b, K)[k..], v) && dq == HornerD(Row(b, K)[k..], v) && ddq == HornerDD(Row(b, K)[k..], v)
  }

  lemma AbsorbColumn(b: Bond, K: nat, k: nat, v: real, q: real, dq: real, ddq: real)
    requires k < K && Absorbed(b, K, k + 1, v, q, dq, ddq)
    ensures Absorbed(b, K, k, v, Fma(q, v, Padded(b, k)), Fma(dq, v, q), Fma(ddq, v, dq))
  {
    assert Row(b, K)[k..][1..] == Row(b, K)[k + 1..];
  }

  /** The whole padded row absorbed is the bond's own flows absorbed. */
  lemma AbsorbedAll(b: Bond, K: nat, v: real, q: real, dq: real, ddq: real)
    requires |b.flows| <= K && Absorbed(b, K, 0, v, q, dq, ddq)
    ensures q == Horner(b.flows, v) && dq == HornerD(b.flows, v) && ddq == HornerDD(b.flows, v)
  {
    var zeros := seq(K - |b.flows|, i => 0.0);
    assert Row(b, K)[0..] == b.flows + zeros;
    PaddingIsHarmless(b.flows, zeros, v);
  }

  /** The column sweep: value, derivative and half second derivative of every lane's polynomial, in place. */
  method HornerPass(u: Universe, v: array<real>, q: array<real>, dq: array<real>, ddq: array<real>)
    requires u.Valid() && v.Length == q.Length == dq.Length == ddq.Length == u.B
    requires q != dq && q != ddq && dq != ddq && {v, u.A, u.E} !! {q, dq, ddq}
    modifies q, dq, ddq
    ensures forall b :: 0 <= b < u.B ==>
      q[b] == Horner(u.bonds[b].flows, v[b]) && dq[b] == HornerD(u.bonds[b].flows, v[b])
      && ddq[b] == HornerDD(u.bonds[b].flows, v[b])
  {
    for b := 0 to u.B
      invariant forall c :: 0 <= c < b ==> q[c] == 0.0 && dq[c] == 0.0 && ddq[c] == 0.0
    {
      q[b], dq[b], ddq[b] := 0.0, 0.0, 0.0;
    }
    for k := u.K downto 0
      invariant forall b :: 0 <= b < u.B ==> Absorbed(u.bonds[b], u.K, k, v[b], q[b], dq[b], ddq[b])
    {
      for b := 0 to u.B
        invariant forall c :: 0 <= c < u.B ==>
          Absorbed(u.bonds[c], u.K, if c < b then k else k + 1, v[c], q[c], dq[c], ddq[c])
      {
        AbsorbColumn(u.bonds[b], u.K, k, v[b], q[b], dq[b], ddq[b]);
        assert Holds(u.A, u.E, u.bonds, b, k);
        ddq[b] := Fma(ddq[b], v[b], dq[b]);
        dq[b] := Fma(dq[b], v[b], q[b]);
        q[b] := Fma(q[b], v[b], u.A[At(u.B, b, k)]);
      }
    }
    forall b | 0 <= b < u.B
      ensures q[b] == Horner(u.bonds[b].flows, v[b]) && dq[b] == HornerD(u.bonds[b].flows, v[b])
      ensures ddq[b] == HornerDD(u.bonds[b].flows, v[b])
    {
      AbsorbedAll(u.bonds[b], u.K, v[b], q[b], dq[b], ddq[b]);
    }
  }

  // ---- the batched solve ----------------------------------------------------------------------------------

  /** A price and a slope per lane; none for a lane without a price. */
  ghost predicate Valued(pow: PowFn, b: Bond, y: Lane, dirty: Option<real>, dP: Option<real>) {
    if Priced(y) then dirty == Some(Price(pow, b, y.value)) && dP == Some(Slope(pow, b, y.value))
    else dirty.None? && dP.None?
  }

  /** The lane's discount factor; a lane without a price carries a stand-in through the sweep. */
  function Discount(y: Lane): real {
    if Priced(y) then 1.0 / Base(y.value) else 0.0
  }

  /** One power, then the chain rule v -> y. */
  method LaneValue(pow: PowFn, b: Bond, y: Lane, v: real, q: real, dq: real)
    returns (dirty: Option<real>, dP: Option<real>)
    requires PowLaws(pow) && v == Discount(y) && q == Horner(b.flows, v) && dq == HornerD(b.flows, v)
    ensures Valued(pow, b, y, dirty, dP)
  {
    if !Priced(y) {
      return None, None;
    }
    FastFormIsReference(pow, b, y.value);
    var vw := pow(v, b.w);
    dirty := Some(FastPrice(vw, q));
    dP := Some(FastSlope(vw, b.w, q, dq, v));
  }

  method Discounts(y: array<Lane>) returns (v: array<real>)
    ensures fresh(v) && v.Length == y.Length && forall b :: 0 <= b < y.Length ==> v[b] == Discount(y[b])
  {
    v := new real[y.Length](_ => 0.0);
    for b := 0 to y.Length
      invariant forall c :: 0 <= c < b ==> v[c] == Discount(y[c])
    {
      v[b] := Discount(y[b]);
    }
  }

  /** Prices and slopes of every lane at its current yield, through the sweep. */
  method Evaluate(pow: PowFn, u: Universe, y: array<Lane>) returns (dirty: array<Option<real>>, dP: array<Option<real>>)
    requires PowLaws(pow) && u.Valid() && y.Length == u.B
    ensures fresh(dirty) && fresh(dP) && dirty.Length == dP.Length == u.B
    ensures forall b :: 0 <= b < u.B ==> Valued(pow, u.bonds[b], y[b], dirty[b], dP[b])
  {
    var v := Discounts(y);
    var q, dq, ddq := new real[u.B](_ => 0.0), new real[u.B](_ => 0.0), new real[u.B](_ => 0.0);
    HornerPass(u, v, q, dq, ddq);
    dirty, dP := new Option<real>[u.B](_ => None), new Option<real>[u.B](_ => None);
    LaneValues(pow, u.bonds, y, v, q, dq, dirty, dP);
  }

  method LaneValues(pow: PowFn, bonds: seq<Bond>, y: array<Lane>, v: array<real>, q: array<real>, dq: array<real>,
                    dirty: array<Option<real>>, dP: array<Option<real>>)
    requires PowLaws(pow) && y.Length == v.Length == q.Length == dq.Length == dirty.Length == dP.Length == |bonds|
    requires dirty != dP && y !in {dirty, dP}
    requires forall b :: 0 <= b < |bonds| ==>
      v[b] == Discount(y[b]) && q[b] == Horner(bonds[b].flows, v[b]) && dq[b] == HornerD(bonds[b].flows, v[b])
    modifies dirty, dP
    ensures forall b :: 0 <= b < |bonds| ==> Valued(pow, bonds[b], y[b], dirty[b], dP[b])
  {
    for b := 0 to |bonds|
      invariant forall c :: 0 <= c < b ==> Valued(pow, bonds[c], y[c], dirty[c], dP[c])
    {
      var p, s := LaneValue(pow, bonds[b], y[b], v[b], q[b], dq[b]);
      dirty[b], dP[b] := p, s;
    }
  }

  function Abs(r: real): real {
    if r < 0.0 then -r else r
  }

  ghost predicate Near(dirty: Option<real>, target: real, tol: real) {
    dirty.Some? ==> -tol <= dirty.value - target <= tol
  }

  /** The largest residual. A lane without a price is passed over: no number is larger than the maximum so far. */
  method MaxResidual(dirty: array<Option<real>>, target: seq<real>, ghost tol: real) returns (maxr: real)
    requires dirty.Length == |target| && tol >= 0.0
    ensures maxr <= tol <==> forall b :: 0 <= b < |target| ==> Near(dirty[b], target[b], tol)
  {
    maxr := 0.0;
    for b := 0 to dirty.Length
      invariant maxr >= 0.0 && forall c :: 0 <= c < b && dirty[c].Some? ==> Abs(dirty[c].value - target[c]) <= maxr
      invariant maxr == 0.0 || exists c :: 0 <= c < b && dirty[c].Some? && Abs(dirty[c].value - target[c]) == maxr
    {
      if dirty[b].Some? {
        var r := Abs(dirty[b].value - target[b]);
        if r > maxr {
          maxr := r;
        }
      }
    }
  }

  /** Every lane's next yield. */
  method StepLanes(ghost pow: PowFn, ghost bonds: seq<Bond>, y: array<Lane>, dirty: array<Option<real>>,
                   dP: array<Option<real>>, target: seq<real>)
    requires Lanes(pow, bonds, target, y[..]) && y.Length == dirty.Length == dP.Length
    requires forall b :: 0 <= b < |bonds| ==> Valued(pow, bonds[b], y[b], dirty[b], dP[b])
    modifies y
    ensures forall b :: 0 <= b < |bonds| ==> y[b] == LaneStep(pow, bonds[b], target[b], old(y[b]))
  {
    for b := 0 to y.Length
      invariant forall c :: 0 <= c < y.Length ==>
        y[c] == if c < b then LaneStep(pow, bonds[c], target[c], old(y[c])) else old(y[c])
    {
      if dirty[b].Some? {
        SlopeNegative(pow, bonds[b], y[b].value, |bonds[b].flows|);
        y[b] := Some(y[b].value - (dirty[b].value - target[b]) / dP[b].value);
      } else {
        y[b] := None;
      }
    }
  }

  // ---- the batched solve ----------------------------------------------------------------------------------

  ghost predicate Lanes(pow: PowFn, bonds: seq<Bond>, target: seq<real>, y0: seq<Lane>) {
    PowLaws(pow) && |bonds| == |target| == |y0| && forall b :: 0 <= b < |bonds| ==> Street(bonds[b])
  }

  /** Every lane at its n-th yield. */
  ghost predicate AtTrace(pow: PowFn, bonds: seq<Bond>, target: seq<real>, y0: seq<Lane>, y: seq<Lane>, n: nat)
    requires Lanes(pow, bonds, target, y0)
  {
    |y| == |bonds| && forall b :: 0 <= b < |bonds| ==> y[b] == Trace(pow, bonds[b], target[b], y0[b], n)
  }

  /** What stops the batch: every lane that has a price is within tolerance. */
  ghost predicate AllSettled(pow: PowFn, bonds: seq<Bond>, target: seq<real>, y0: seq<Lane>, tol: real, n: nat)
    requires Lanes(pow, bonds, target, y0)
  {
    forall b :: 0 <= b < |bonds| ==>
      SettledLane(pow, bonds[b], target[b], Trace(pow, bonds[b], target[b], y0[b], n), tol)
  }

  ghost predicate SettledLane(pow: PowFn, b: Bond, target: real, y: Lane, tol: real) {
    Priced(y) ==> Within(pow, b, target, y, tol)
  }

  /** One pass: is every lane with a price in tolerance? If not, every lane steps. */
  method Pass(pow: PowFn, u: Universe, target: seq<real>, y: array<Lane>, tol: real, ghost y0: seq<Lane>, ghost n: nat)
    returns (within: bool)
    requires u.Valid() && y.Length == u.B && tol >= 0.0
    requires Lanes(pow, u.bonds, target, y0) && AtTrace(pow, u.bonds, target, y0, y[..], n)
    modifies y
    ensures within <==> AllSettled(pow, u.bonds, target, y0, tol, n)
    ensures AtTrace(pow, u.bonds, target, y0, y[..], if within then n else n + 1)
  {
    ghost var at := y[..];
    var dirty, dP := Evaluate(pow, u, y);
    var maxr := MaxResidual(dirty, target, tol);
    forall b | 0 <= b < u.B
      ensures Near(dirty[b], target[b], tol) <==> SettledLane(pow, u.bonds[b], target[b], at[b], tol)
    {
      assert y[b] == at[b];
    }
    within := maxr <= tol;
    SettledAt(pow, u.bonds, target, y0, at, tol, n);
    if !within {
      StepLanes(pow, u.bonds, y, dirty, dP, target);
    }
  }

  lemma SettledAt(pow: PowFn, bonds: seq<Bond>, target: seq<real>, y0: seq<Lane>, y: seq<Lane>, tol: real, n: nat)
    requires Lanes(pow, bonds, target, y0) && AtTrace(pow, bonds, target, y0, y, n)
    ensures AllSettled(pow, bonds, target, y0, tol, n) <==>
            forall b :: 0 <= b < |bonds| ==> SettledLane(pow, bonds[b], target[b], y[b], tol)
  {
    forall b | 0 <= b < |bonds| ensures y[b] == Trace(pow, bonds[b], target[b], y0[b], n) {
    }
  }

  /** No earlier pass found every lane with a price in tolerance. */
  ghost predicate NoneBefore(pow: PowFn, bonds: seq<Bond>, target: seq<real>, y0: seq<Lane>, tol: real, n: nat)
    requires Lanes(pow, bonds, target, y0)
  {
    forall m: nat :: m < n ==> !AllSettled(pow, bonds, target, y0, tol, m)
  }

  /** One Newton loop for the whole universe: every lane steps until every lane that has a price is in tolerance. */
  method BatchedNewton(pow: PowFn, u: Universe, target: seq<real>, y: array<Lane>, tol: real, cap: nat) returns (n: nat)
    requires u.Valid() && y.Length == u.B && tol >= 0.0 && Lanes(pow, u.bonds, target, y[..])
    modifies y
    ensures AtTrace(pow, u.bonds, target, old(y[..]), y[..], n)
    ensures n <= cap && (n < cap ==> AllSettled(pow, u.bonds, target, old(y[..]), tol, n))
    ensures NoneBefore(pow, u.bonds, target, old(y[..]), tol, n)
  {
    ghost var y0 := y[..];
    n := 0;
    while n < cap
      invariant n <= cap && u.Valid() && AtTrace(pow, u.bonds, target, y0, y[..], n)
      invariant NoneBefore(pow, u.bonds, target, y0, tol, n)
    {
      var within := Pass(pow, u, target, y, tol, y0, n);
      if within {
        return;
      }
      n := n + 1;
    }
  }

  // ---- the two solves agree -------------------------------------------------------------------------------

  /** A lane in tolerance at m, where its own solve would stop, and carried on by the batch to n: it is still in
      tolerance if it took a step of its own or arrests; and left of its root, or once it has taken a step, it stands
      there at a yield no lower and a residual no larger. */
  lemma LaneAtBatchStop(pow: PowFn, b: Bond, target: real, y0: real, tol: real, m: nat, n: nat)
    requires Steady(pow, b, target, y0) && InTolerance(pow, b, target, y0, tol, m) && m <= n
    ensures m >= 1 || Arrests(pow, b, target, y0, tol) ==> InTolerance(pow, b, target, y0, tol, n)
    ensures m >= 1 || Residual(pow, b, target, y0) >= 0.0 ==>
      var at, own := Iterate(pow, b, target, y0, n), Iterate(pow, b, target, y0, m);
      own <= at && 0.0 <= Residual(pow, b, target, at) <= Residual(pow, b, target, own) <= tol
  {
    if m >= 1 || Arrests(pow, b, target, y0, tol) {
      StaysFrom(pow, b, target, y0, tol, m, n);
    }
    if m >= 1 || Residual(pow, b, target, y0) >= 0.0 {
      IteratesRise(pow, b, target, y0, m, n);
    }
  }

  /** From pass 1 on the batch looks at its steady lanes alone: a lost one never holds it up. */
  lemma OnlySteadyCount(pow: PowFn, bonds: seq<Bond>, target: seq<real>, y0: seq<Lane>, tol: real, n: nat)
    requires Lanes(pow, bonds, target, y0) && n >= 1
    ensures AllSettled(pow, bonds, target, y0, tol, n) <==>
            forall b :: 0 <= b < |bonds| && SteadyLane(pow, bonds[b], target[b], y0[b]) ==>
              InTolerance(pow, bonds[b], target[b], y0[b].value, tol, n)
  {
    forall b | 0 <= b < |bonds|
      ensures SettledLane(pow, bonds[b], target[b], Trace(pow, bonds[b], target[b], y0[b], n), tol) <==>
        (SteadyLane(pow, bonds[b], target[b], y0[b]) ==> InTolerance(pow, bonds[b], target[b], y0[b].value, tol, n))
    {
      if SteadyLane(pow, bonds[b], target[b], y0[b]) {
        WithinIsInTolerance(pow, bonds[b], target[b], y0[b], tol, n);
      } else {
        LostFrom(pow, bonds[b], target[b], y0[b], n);
      }
    }
  }

  /** The first pass from pass 1 on that finds a steady lane in tolerance, or the cap: where its solve would stop if it
      looked at its residual only after a step. */
  ghost predicate StopsAfterAStep(pow: PowFn, b: Bond, target: real, y0: real, tol: real, cap: nat, n: nat)
    requires Steady(pow, b, target, y0)
  {
    && 1 <= n <= cap
    && (n < cap ==> InTolerance(pow, b, target, y0, tol, n))
    && forall m: nat :: 1 <= m < n ==> !InTolerance(pow, b, target, y0, tol, m)
  }

  ghost predicate StepStops(pow: PowFn, bonds: seq<Bond>, target: seq<real>, y0: seq<Lane>, tol: real, cap: nat,
                            stops: seq<nat>) {
    && Lanes(pow, bonds, target, y0) && |stops| == |bonds|
    && forall b :: 0 <= b < |bonds| && SteadyLane(pow, bonds[b], target[b], y0[b]) ==>
         StopsAfterAStep(pow, bonds[b], target[b], y0[b].value, tol, cap, stops[b])
  }

  /** Every steady lane's stop is at n or before. */
  ghost predicate SteadyBy(pow: PowFn, bonds: seq<Bond>, target: seq<real>, y0: seq<Lane>, stops: seq<nat>, n: nat)
    requires Lanes(pow, bonds, target, y0) && |stops| == |bonds|
  {
    forall b :: 0 <= b < |bonds| && SteadyLane(pow, bonds[b], target[b], y0[b]) ==> stops[b] <= n
  }

  /** Whatever the starts: a batch that does not stop at once stops at n < cap if and only if every steady lane, looked
      at from its first step on, is in tolerance by n and, past pass 1, some steady lane not before. */
  lemma BatchStopsIff(pow: PowFn, bonds: seq<Bond>, target: seq<real>, y0: seq<Lane>, tol: real, cap: nat,
                      stops: seq<nat>, n: nat)
    requires StepStops(pow, bonds, target, y0, tol, cap, stops) && 1 <= n < cap
    ensures AllSettled(pow, bonds, target, y0, tol, n) && NoneBefore(pow, bonds, target, y0, tol, n)
            <==> !AllSettled(pow, bonds, target, y0, tol, 0) && SteadyBy(pow, bonds, target, y0, stops, n)
                 && (n == 1 || !SteadyBy(pow, bonds, target, y0, stops, n - 1))
  {
    forall m: nat | 1 <= m < cap
      ensures AllSettled(pow, bonds, target, y0, tol, m) <==> SteadyBy(pow, bonds, target, y0, stops, m)
    {
      OnlySteadyCount(pow, bonds, target, y0, tol, m);
      forall b | 0 <= b < |bonds| && SteadyLane(pow, bonds[b], target[b], y0[b])
        ensures InTolerance(pow, bonds[b], target[b], y0[b].value, tol, m) <==> stops[b] <= m
      {
        if stops[b] <= m {
          StaysFrom(pow, bonds[b], target[b], y0[b].value, tol, stops[b], m);
        }
      }
    }
  }

  /** The lanes' own stops. */
  ghost predicate OwnStops(pow: PowFn, bonds: seq<Bond>, target: seq<real>, y0: seq<Lane>, tol: real, cap: nat,
                           stops: seq<nat>) {
    && Lanes(pow, bonds, target, y0) && |stops| == |bonds|
    && forall b :: 0 <= b < |bonds| ==> StopsAt(pow, bonds[b], target[b], y0[b], tol, cap, stops[b])
  }

  /** A steady lane that takes a step of its own, or arrests. */
  ghost predicate ArrestsBy(pow: PowFn, b: Bond, target: real, y0: Lane, tol: real, stop: nat) {
    SteadyLane(pow, b, target, y0) && (stop >= 1 || Arrests(pow, b, target, y0.value, tol))
  }

  /** Every lane is steady, and every lane that is in tolerance from the start arrests. */
  ghost predicate AllArrest(pow: PowFn, bonds: seq<Bond>, target: seq<real>, y0: seq<Lane>, tol: real, stops: seq<nat>)
    requires |bonds| == |target| == |y0| == |stops|
  {
    forall b :: 0 <= b < |bonds| ==> ArrestsBy(pow, bonds[b], target[b], y0[b], tol, stops[b])
  }

  ghost predicate AllBy(stops: seq<nat>, n: nat) {
    forall b :: 0 <= b < |stops| ==> stops[b] <= n
  }

  /** When every lane is steady, and every lane in tolerance from the start arrests, the batched loop runs exactly as
      long as its slowest lane: it stops at n < cap if and only if every lane's own solve stops by n and some lane's
      stops there. */
  lemma BatchStopsWithSlowestLane(pow: PowFn, bonds: seq<Bond>, target: seq<real>, y0: seq<Lane>, tol: real, cap: nat,
                                  stops: seq<nat>, n: nat)
    requires OwnStops(pow, bonds, target, y0, tol, cap, stops) && n < cap
    requires AllArrest(pow, bonds, target, y0, tol, stops)
    ensures AllSettled(pow, bonds, target, y0, tol, n) && NoneBefore(pow, bonds, target, y0, tol, n)
            <==> AllBy(stops, n) && (n == 0 || exists b :: 0 <= b < |bonds| && stops[b] == n)
  {
    forall m: nat | m < cap ensures AllSettled(pow, bonds, target, y0, tol, m) <==> AllBy(stops, m) {
      forall b | 0 <= b < |bonds|
        ensures SettledLane(pow, bonds[b], target[b], Trace(pow, bonds[b], target[b], y0[b], m), tol) <==> stops[b] <= m
      {
        OwnStopSettles(pow, bonds[b], target[b], y0[b], tol, cap, stops[b], m);
      }
    }
    if n > 0 {
      assert AllSettled(pow, bonds, target, y0, tol, n - 1) <==> AllBy(stops, n - 1);
    }
  }

  lemma OwnStopSettles(pow: PowFn, b: Bond, target: real, y0: Lane, tol: real, cap: nat, stop: nat, m: nat)
    requires ArrestsBy(pow, b, target, y0, tol, stop) && StopsAt(pow, b, target, y0, tol, cap, stop) && m < cap
    ensures SettledLane(pow, b, target, Trace(pow, b, target, y0, m), tol) <==> stop <= m
  {
    WithinIsInTolerance(pow, b, target, y0, tol, m);
    if stop <= m {
      WithinIsInTolerance(pow, b, target, y0, tol, stop);
      StaysFrom(pow, b, target, y0.value, tol, stop, m);
    }
  }
}
