/** Forward-mode duals of include/swaps/ad/dual.hpp, over exact reals: the full-width pass gives the symbolic partials,
    and the width-one pass along u gives their u-weighted sum. `exp` is an arbitrary function. */
module Duals {

  type Vec = seq<real>

  /** The scalar code a pricing kernel runs, with its constants and the free knots it reads. */
  datatype Expr =
    | Const(c: real)
    | Knot(i: nat)
    | Add(a: Expr, b: Expr)
    | Sub(a: Expr, b: Expr)
    | Mul(a: Expr, b: Expr)
    | Div(a: Expr, b: Expr)
    | Exp(a: Expr)

  type ExpFn = real -> real

  // ---- named arithmetic -----------------------------------------------------------------------------------

  function Times(p: real, q: real): real {
    p * q
  }

  /** Division; a zero divisor is outside the model (`Defined`). */
  function Quot(p: real, q: real): real {
    if q == 0.0 then 0.0 else p / q
  }

  /** c p + d q: what every derivative rule is made of. */
  function Mix(c: real, p: real, d: real, q: real): real {
    c * p + d * q
  }

  // ---- plain evaluation and symbolic partials -------------------------------------------------------------

  function Value(e: Expr, x: Vec, f: ExpFn): real {
    match e
    case Const(c) => c
    case Knot(i) => if i < |x| then x[i] else 0.0
    case Add(a, b) => Value(a, x, f) + Value(b, x, f)
    case Sub(a, b) => Value(a, x, f) - Value(b, x, f)
    case Mul(a, b) => Times(Value(a, x, f), Value(b, x, f))
    case Div(a, b) => Quot(Value(a, x, f), Value(b, x, f))
    case Exp(a) => f(Value(a, x, f))
  }

  /** Every knot in range, and no division by zero on the way to the value. */
  predicate Defined(e: Expr, x: Vec, f: ExpFn) {
    match e
    case Const(_) => true
    case Knot(i) => i < |x|
    case Exp(a) => Defined(a, x, f)
    case Div(a, b) => Defined(a, x, f) && Defined(b, x, f) && Value(b, x, f) != 0.0
    case Add(a, b) => Defined(a, x, f) && Defined(b, x, f)
    case Sub(a, b) => Defined(a, x, f) && Defined(b, x, f)
    case Mul(a, b) => Defined(a, x, f) && Defined(b, x, f)
  }

  /** The partial derivative in knot j, as an expression. */
  function D(e: Expr, j: nat): Expr {
    match e
    case Const(_) => Const(0.0)
    case Knot(i) => Const(if i == j then 1.0 else 0.0)
    case Add(a, b) => Add(D(a, j), D(b, j))
    case Sub(a, b) => Sub(D(a, j), D(b, j))
    case Mul(a, b) => Add(Mul(D(a, j), b), Mul(a, D(b, j)))
    case Div(a, b) => Div(Sub(Mul(D(a, j), b), Mul(a, D(b, j))), Mul(b, b))
    case Exp(a) => Mul(Exp(a), D(a, j))
  }

  function Partial(e: Expr, j: nat, x: Vec, f: ExpFn): real {
    Value(D(e, j), x, f)
  }

  function Gradient(e: Expr, x: Vec, f: ExpFn): (g: Vec)
    ensures |g| == |x|
  {
    seq(|x|, j requires j >= 0 => Partial(e, j, x, f))
  }

  function Dot(u: Vec, g: Vec): real
    requires |u| == |g|
  {
    if u == [] then 0.0 else Times(u[0], g[0]) + Dot(u[1..], g[1..])
  }

  // ---- duals ----------------------------------------------------------------------------------------------

  /** A value and its derivative vector. An EMPTY vector means a constant: zero in every direction. */
  datatype Dual = Dual(val: real, der: Vec)

  /** c a + d b, where an empty vector is a zero of the other's width. */
  function Combine(c: real, a: Vec, d: real, b: Vec): Vec
    requires a == [] || b == [] || |a| == |b|
  {
    if a == [] && b == [] then []
    else if a == [] then seq(|b|, i requires 0 <= i < |b| => Mix(c, 0.0, d, b[i]))
    else if b == [] then seq(|a|, i requires 0 <= i < |a| => Mix(c, a[i], d, 0.0))
    else seq(|a|, i requires 0 <= i < |a| => Mix(c, a[i], d, b[i]))
  }

  function Values(xd: seq<Dual>): (x: Vec)
    ensures |x| == |xd|
  {
    seq(|xd|, i requires 0 <= i < |xd| => xd[i].val)
  }

  ghost predicate HasWidth(xd: seq<Dual>, w: nat) {
    forall i :: 0 <= i < |xd| ==> |xd[i].der| == w
  }

  /** The kernel run on duals of width w. */
  function Eval(e: Expr, xd: seq<Dual>, f: ExpFn, ghost w: nat): (r: Dual)
    requires HasWidth(xd, w)
    ensures r.der == [] || |r.der| == w
  {
    match e
    case Const(c) => Dual(c, [])
    case Knot(i) => if i < |xd| then xd[i] else Dual(0.0, [])
    case Add(a, b) =>
      var p, q := Eval(a, xd, f, w), Eval(b, xd, f, w);
      Dual(p.val + q.val, Combine(1.0, p.der, 1.0, q.der))
    case Sub(a, b) =>
      var p, q := Eval(a, xd, f, w), Eval(b, xd, f, w);
      Dual(p.val - q.val, Combine(1.0, p.der, -1.0, q.der))
    case Mul(a, b) =>
      var p, q := Eval(a, xd, f, w), Eval(b, xd, f, w);
      Dual(Times(p.val, q.val), Combine(q.val, p.der, p.val, q.der))
    case Div(a, b) =>
      var p, q := Eval(a, xd, f, w), Eval(b, xd, f, w);
      Dual(Quot(p.val, q.val), Combine(NumFactor(q.val), p.der, DenFactor(p.val, q.val), q.der))
    case Exp(a) =>
      var p := Eval(a, xd, f, w);
      Dual(f(p.val), Combine(f(p.val), p.der, 0.0, []))
  }

  /** The two factors a quotient scales its operands' derivatives by. */
  function NumFactor(q: real): real {
    Quot(q, Times(q, q))
  }

  function DenFactor(p: real, q: real): real {
    Quot(-p, Times(q, q))
  }

  /** A dual pass carries the plain value. */
  lemma {:induction false} EvalValue(e: Expr, xd: seq<Dual>, f: ExpFn, w: nat)
    requires HasWidth(xd, w)
    ensures Eval(e, xd, f, w).val == Value(e, Values(xd), f)
  {
    match e
    case Const(_) =>
    case Knot(_) =>
    case Exp(a) => EvalValue(a, xd, f, w);
    case Add(a, b) => EvalValue(a, xd, f, w); EvalValue(b, xd, f, w);
    case Sub(a, b) => EvalValue(a, xd, f, w); EvalValue(b, xd, f, w);
    case Mul(a, b) => EvalValue(a, xd, f, w); EvalValue(b, xd, f, w);
    case Div(a, b) => EvalValue(a, xd, f, w); EvalValue(b, xd, f, w);
  }

  // ---- the derivative rules -------------------------------------------------------------------------------

  lemma MulPartial(a: Expr, b: Expr, j: nat, x: Vec, f: ExpFn)
    ensures Partial(Mul(a, b), j, x, f) == Mix(Value(b, x, f), Partial(a, j, x, f), Value(a, x, f), Partial(b, j, x, f))
  {
    var l, r := Mul(D(a, j), b), Mul(a, D(b, j));
    assert D(Mul(a, b), j) == Add(l, r);
    assert Value(Add(l, r), x, f) == Value(l, x, f) + Value(r, x, f);
    TimesMix(Partial(a, j, x, f), Value(b, x, f), Value(a, x, f), Partial(b, j, x, f));
  }

  lemma TimesMix(dp: real, q: real, p: real, dq: real)
    ensures Times(dp, q) + Times(p, dq) == Mix(q, dp, p, dq)
    ensures Times(q, dp) == Mix(q, dp, 0.0, 0.0)
  {
  }

  lemma QuotientRule(p: real, q: real, dp: real, dq: real)
    ensures Quot(Times(dp, q) - Times(p, dq), Times(q, q)) == Mix(NumFactor(q), dp, DenFactor(p, q), dq)
  {
    var s := q * q;
    if s != 0.0 {
      assert (dp * q) / s == (q / s) * dp;
      assert (p * dq) / s == (p / s) * dq;
      assert (dp * q - p * dq) / s == (dp * q) / s - (p * dq) / s;
      assert (-p / s) * dq == -((p / s) * dq);
    }
  }

  lemma DivPartial(a: Expr, b: Expr, j: nat, x: Vec, f: ExpFn)
    ensures Partial(Div(a, b), j, x, f) ==
            Mix(NumFactor(Value(b, x, f)), Partial(a, j, x, f), DenFactor(Value(a, x, f), Value(b, x, f)),
                Partial(b, j, x, f))
  {
    var l, r, s := Mul(D(a, j), b), Mul(a, D(b, j)), Mul(b, b);
    assert D(Div(a, b), j) == Div(Sub(l, r), s);
    assert Value(Div(Sub(l, r), s), x, f) == Quot(Value(Sub(l, r), x, f), Value(s, x, f));
    assert Value(Sub(l, r), x, f) == Value(l, x, f) - Value(r, x, f);
    QuotientRule(Value(a, x, f), Value(b, x, f), Partial(a, j, x, f), Partial(b, j, x, f));
  }

  lemma AddPartial(a: Expr, b: Expr, j: nat, x: Vec, f: ExpFn)
    ensures Partial(Add(a, b), j, x, f) == Mix(1.0, Partial(a, j, x, f), 1.0, Partial(b, j, x, f))
    ensures Partial(Sub(a, b), j, x, f) == Mix(1.0, Partial(a, j, x, f), -1.0, Partial(b, j, x, f))
  {
  }

  lemma ExpPartial(a: Expr, j: nat, x: Vec, f: ExpFn)
    ensures Partial(Exp(a), j, x, f) == Mix(f(Value(a, x, f)), Partial(a, j, x, f), 0.0, 0.0)
  {
    assert D(Exp(a), j) == Mul(Exp(a), D(a, j));
    assert Value(Mul(Exp(a), D(a, j)), x, f) == Times(Value(Exp(a), x, f), Partial(a, j, x, f));
    TimesMix(Partial(a, j, x, f), f(Value(a, x, f)), 0.0, 0.0);
  }

  // ---- one derivative slot --------------------------------------------------------------------------------

  /** A derivative vector read as directions: an empty one is zero in each. */
  function Slot(der: Vec, i: nat): real {
    if i < |der| then der[i] else 0.0
  }

  lemma CombineSlot(c: real, a: Vec, d: real, b: Vec, i: nat, w: nat)
    requires (a == [] || |a| == w) && (b == [] || |b| == w) && i < w
    ensures Slot(Combine(c, a, d, b), i) == Mix(c, Slot(a, i), d, Slot(b, i))
  {
  }

  lemma DotHead(u: real, c: real, g: real, d: real, h: real, p: real, q: real)
    ensures Times(u, Mix(c, g, d, h)) + Mix(c, p, d, q) == Mix(c, Times(u, g) + p, d, Times(u, h) + q)
  {
    assert u * (c * g + d * h) == c * (u * g) + d * (u * h);
  }

  lemma {:induction false} DotMix(u: Vec, c: real, g: Vec, d: real, h: Vec, r: Vec)
    requires |u| == |g| == |h| == |r| && forall j :: 0 <= j < |u| ==> r[j] == Mix(c, g[j], d, h[j])
    ensures Dot(u, r) == Mix(c, Dot(u, g), d, Dot(u, h))
    decreases |u|
  {
    if u != [] {
      DotMix(u[1..], c, g[1..], d, h[1..], r[1..]);
      DotHead(u[0], c, g[0], d, h[0], Dot(u[1..], g[1..]), Dot(u[1..], h[1..]));
    }
  }

  /** If a slot of each operand is its gradient along u, so is that slot of their combination. */
  lemma CombineSlots(u: Vec, c: real, ga: Vec, ra: Vec, d: real, gb: Vec, rb: Vec, ge: Vec, i: nat, w: nat)
    requires |u| == |ga| == |gb| == |ge| && i < w && (ra == [] || |ra| == w) && (rb == [] || |rb| == w)
    requires Slot(ra, i) == Dot(u, ga) && Slot(rb, i) == Dot(u, gb)
    requires forall j :: 0 <= j < |u| ==> ge[j] == Mix(c, ga[j], d, gb[j])
    ensures Slot(Combine(c, ra, d, rb), i) == Dot(u, ge)
  {
    CombineSlot(c, ra, d, rb, i, w);
    DotMix(u, c, ga, d, gb, ge);
  }

  lemma {:induction false} DotZero(u: Vec, g: Vec)
    requires |u| == |g| && forall j :: 0 <= j < |g| ==> g[j] == 0.0
    ensures Dot(u, g) == 0.0
    decreases |u|
  {
    if u != [] {
      DotZero(u[1..], g[1..]);
    }
  }

  lemma {:induction false} DotUnit(u: Vec, g: Vec, l: nat)
    requires |u| == |g| && l < |u| && forall j :: 0 <= j < |g| ==> g[j] == if j == l then 1.0 else 0.0
    ensures Dot(u, g) == u[l] && Dot(g, u) == u[l]
    decreases |u|
  {
    if l == 0 {
      DotZero(u[1..], g[1..]);
      ZeroDot(g[1..], u[1..]);
    } else {
      DotUnit(u[1..], g[1..], l - 1);
    }
  }

  lemma {:induction false} ZeroDot(u: Vec, g: Vec)
    requires |u| == |g| && forall j :: 0 <= j < |u| ==> u[j] == 0.0
    ensures Dot(u, g) == 0.0
    decreases |u|
  {
    if u != [] {
      ZeroDot(u[1..], g[1..]);
    }
  }

  // ---- every slot of every pass ---------------------------------------------------------------------------

  /** The direction slot i differentiates along: column i of the seeds. */
  function Column(xd: seq<Dual>, i: nat): (u: Vec)
    ensures |u| == |xd|
  {
    seq(|xd|, j requires 0 <= j < |xd| => Slot(xd[j].der, i))
  }

  /** Whatever the seeds, slot i of a pass is the gradient dotted with the seeds' column i. */
  lemma {:induction false} SlotIsDirectional(e: Expr, xd: seq<Dual>, f: ExpFn, w: nat, i: nat)
    requires HasWidth(xd, w) && i < w && Defined(e, Values(xd), f)
    ensures Slot(Eval(e, xd, f, w).der, i) == Dot(Column(xd, i), Gradient(e, Values(xd), f))
    decreases e
  {
    var x, u := Values(xd), Column(xd, i);
    match e
    case Const(c) => DotZero(u, Gradient(e, x, f));
    case Knot(l) => DotUnit(u, Gradient(e, x, f), l);
    case Exp(a) =>
      SlotIsDirectional(a, xd, f, w, i);
      EvalValue(a, xd, f, w);
      var zeros := seq(|x|, j => 0.0);
      DotZero(u, zeros);
      forall j | 0 <= j < |x|
        ensures Gradient(e, x, f)[j] == Mix(f(Value(a, x, f)), Gradient(a, x, f)[j], 0.0, zeros[j])
      {
        ExpPartial(a, j, x, f);
      }
      CombineSlots(u, f(Value(a, x, f)), Gradient(a, x, f), Eval(a, xd, f, w).der, 0.0, zeros, [],
                   Gradient(e, x, f), i, w);
    case Add(a, b) =>
      SlotIsDirectional(a, xd, f, w, i);
      SlotIsDirectional(b, xd, f, w, i);
      forall j | 0 <= j < |x|
        ensures Gradient(e, x, f)[j] == Mix(1.0, Gradient(a, x, f)[j], 1.0, Gradient(b, x, f)[j])
      {
        AddPartial(a, b, j, x, f);
      }
      BinarySlot(a, b, 1.0, 1.0, xd, f, w, i, Gradient(e, x, f));
    case Sub(a, b) =>
      SlotIsDirectional(a, xd, f, w, i);
      SlotIsDirectional(b, xd, f, w, i);
      forall j | 0 <= j < |x|
        ensures Gradient(e, x, f)[j] == Mix(1.0, Gradient(a, x, f)[j], -1.0, Gradient(b, x, f)[j])
      {
        AddPartial(a, b, j, x, f);
      }
      BinarySlot(a, b, 1.0, -1.0, xd, f, w, i, Gradient(e, x, f));
    case Mul(a, b) =>
      SlotIsDirectional(a, xd, f, w, i);
      SlotIsDirectional(b, xd, f, w, i);
      forall j | 0 <= j < |x|
        ensures Gradient(e, x, f)[j] == Mix(Value(b, x, f), Gradient(a, x, f)[j], Value(a, x, f), Gradient(b, x, f)[j])
      {
        MulPartial(a, b, j, x, f);
      }
      EvalValue(a, xd, f, w);
      EvalValue(b, xd, f, w);
      BinarySlot(a, b, Value(b, x, f), Value(a, x, f), xd, f, w, i, Gradient(e, x, f));
    case Div(a, b) =>
      SlotIsDirectional(a, xd, f, w, i);
      SlotIsDirectional(b, xd, f, w, i);
      var c, d := NumFactor(Value(b, x, f)), DenFactor(Value(a, x, f), Value(b, x, f));
      forall j | 0 <= j < |x| ensures Gradient(e, x, f)[j] == Mix(c, Gradient(a, x, f)[j], d, Gradient(b, x, f)[j]) {
        DivPartial(a, b, j, x, f);
      }
      EvalValue(a, xd, f, w);
      EvalValue(b, xd, f, w);
      BinarySlot(a, b, c, d, xd, f, w, i, Gradient(e, x, f));
  }

  lemma BinarySlot(a: Expr, b: Expr, c: real, d: real, xd: seq<Dual>, f: ExpFn, w: nat, i: nat, ge: Vec)
    requires HasWidth(xd, w) && i < w && |ge| == |xd|
    requires Slot(Eval(a, xd, f, w).der, i) == Dot(Column(xd, i), Gradient(a, Values(xd), f))
    requires Slot(Eval(b, xd, f, w).der, i) == Dot(Column(xd, i), Gradient(b, Values(xd), f))
    requires forall j :: 0 <= j < |xd| ==>
      ge[j] == Mix(c, Gradient(a, Values(xd), f)[j], d, Gradient(b, Values(xd), f)[j])
    ensures Slot(Combine(c, Eval(a, xd, f, w).der, d, Eval(b, xd, f, w).der), i) == Dot(Column(xd, i), ge)
  {
    var x := Values(xd);
    CombineSlots(Column(xd, i), c, Gradient(a, x, f), Eval(a, xd, f, w).der, d, Gradient(b, x, f),
                 Eval(b, xd, f, w).der, ge, i, w);
  }

  // ---- the seeds ------------------------------------------------------------------------------------------

  function Unit(m: nat, i: nat): (u: Vec)
    ensures |u| == m
  {
    seq(m, j => if j == i then 1.0 else 0.0)
  }

  /** Full width: knot i carries the unit vector e_i. */
  method Seed(x: Vec) returns (xd: seq<Dual>)
    ensures |xd| == |x| && forall i :: 0 <= i < |x| ==> xd[i] == Dual(x[i], Unit(|x|, i))
  {
    xd := [];
    for i := 0 to |x|
      invariant |xd| == i && forall j :: 0 <= j < i ==> xd[j] == Dual(x[j], Unit(|x|, j))
    {
      xd := xd + [Dual(x[i], Unit(|x|, i))];
    }
  }

  /** Width one: knot i carries the i-th component of the direction. */
  method SeedDirectional(x: Vec, direction: Vec) returns (xd: seq<Dual>)
    requires |direction| == |x|
    ensures |xd| == |x| && forall i :: 0 <= i < |x| ==> xd[i] == Dual(x[i], [direction[i]])
  {
    xd := [];
    for i := 0 to |x|
      invariant |xd| == i && forall j :: 0 <= j < i ==> xd[j] == Dual(x[j], [direction[j]])
    {
      xd := xd + [Dual(x[i], [direction[i]])];
    }
  }

  /** Width one along the all-ones direction: every knot carries the same single slot. */
  method SeedParallel(x: Vec) returns (xd: seq<Dual>)
    ensures |xd| == |x| && forall i :: 0 <= i < |x| ==> xd[i] == Dual(x[i], [1.0])
  {
    xd := [];
    for i := 0 to |x|
      invariant |xd| == i && forall j :: 0 <= j < i ==> xd[j] == Dual(x[j], [1.0])
    {
      xd := xd + [Dual(x[i], [1.0])];
    }
  }

  /** An empty derivative vector means constant: it is left only where every partial is zero. */
  lemma EmptyMeansConstant(e: Expr, x: Vec, xd: seq<Dual>, f: ExpFn)
    requires Defined(e, x, f) && |xd| == |x| && forall i :: 0 <= i < |x| ==> xd[i] == Dual(x[i], Unit(|x|, i))
    requires HasWidth(xd, |x|) && Eval(e, xd, f, |x|).der == []
    ensures forall j :: 0 <= j < |x| ==> Partial(e, j, x, f) == 0.0
  {
    FullPassIsGradient(e, x, xd, f);
    forall j | 0 <= j < |x| ensures Partial(e, j, x, f) == 0.0 {
      assert Slot(Eval(e, xd, f, |x|).der, j) == 0.0;
    }
  }

  function Total(g: Vec): real {
    if g == [] then 0.0 else g[0] + Total(g[1..])
  }

  lemma {:induction false} OnesDot(u: Vec, g: Vec)
    requires |u| == |g| && forall j :: 0 <= j < |u| ==> u[j] == 1.0
    ensures Dot(u, g) == Total(g)
  {
    if u != [] {
      OnesDot(u[1..], g[1..]);
    }
  }

  /** The all-ones pass sums the partials: the parallel-shift derivative. */
  lemma ParallelPassIsTotal(e: Expr, x: Vec, xd: seq<Dual>, f: ExpFn)
    requires Defined(e, x, f) && |xd| == |x| && forall i :: 0 <= i < |x| ==> xd[i] == Dual(x[i], [1.0])
    ensures HasWidth(xd, 1)
    ensures Slot(Eval(e, xd, f, 1).der, 0) == Total(Gradient(e, x, f))
  {
    var ones := seq(|x|, j => 1.0);
    DirectionalPassIsDot(e, x, ones, xd, f);
    OnesDot(ones, Gradient(e, x, f));
  }

  /** The full-width pass: the plain value, and every slot its symbolic partial. */
  lemma FullPassIsGradient(e: Expr, x: Vec, xd: seq<Dual>, f: ExpFn)
    requires Defined(e, x, f) && |xd| == |x| && forall i :: 0 <= i < |x| ==> xd[i] == Dual(x[i], Unit(|x|, i))
    ensures HasWidth(xd, |x|)
    ensures Eval(e, xd, f, |x|).val == Value(e, x, f)
    ensures forall j :: 0 <= j < |x| ==> Slot(Eval(e, xd, f, |x|).der, j) == Partial(e, j, x, f)
  {
    assert HasWidth(xd, |x|);
    assert Values(xd) == x;
    EvalValue(e, xd, f, |x|);
    forall j | 0 <= j < |x| ensures Slot(Eval(e, xd, f, |x|).der, j) == Partial(e, j, x, f) {
      SlotIsDirectional(e, xd, f, |x|, j);
      assert Column(xd, j) == Unit(|x|, j);
      DotUnit(Gradient(e, x, f), Unit(|x|, j), j);
    }
  }

  /** The width-one pass along u: the plain value, and the u-weighted sum of the symbolic partials. */
  lemma DirectionalPassIsDot(e: Expr, x: Vec, u: Vec, xd: seq<Dual>, f: ExpFn)
    requires Defined(e, x, f) && |xd| == |x| == |u| && forall i :: 0 <= i < |x| ==> xd[i] == Dual(x[i], [u[i]])
    ensures HasWidth(xd, 1)
    ensures Eval(e, xd, f, 1).val == Value(e, x, f)
    ensures Slot(Eval(e, xd, f, 1).der, 0) == Dot(u, Gradient(e, x, f))
  {
    assert HasWidth(xd, 1);
    assert Values(xd) == x;
    assert Column(xd, 0) == u;
    EvalValue(e, xd, f, 1);
    SlotIsDirectional(e, xd, f, 1, 0);
  }

  // ---- the two readers ------------------------------------------------------------------------------------

  /** The PV01 reader: 1 bp of the single slot, or zero when the book is a constant. */
  method Pv01(npv: Expr, x: Vec, direction: Vec, f: ExpFn) returns (pv01: real)
    requires Defined(npv, x, f) && |direction| == |x|
    ensures pv01 == 0.0001 * Dot(direction, Gradient(npv, x, f))
  {
    var xd := SeedDirectional(x, direction);
    DirectionalPassIsDot(npv, x, direction, xd, f);
    var r := Eval(npv, xd, f, 1);
    pv01 := if |r.der| > 0 then 0.0001 * r.der[0] else 0.0;
  }

  /** The gradient reader: the full derivative vector, or zeros when its size is not the knot count. */
  method CurveGrad(npv: Expr, x: Vec, f: ExpFn) returns (npvValue: real, grad: Vec)
    requires Defined(npv, x, f)
    ensures npvValue == Value(npv, x, f) && grad == Gradient(npv, x, f)
  {
    var xd := Seed(x);
    FullPassIsGradient(npv, x, xd, f);
    var r := Eval(npv, xd, f, |x|);
    npvValue := r.val;
    grad := if |r.der| == |x| then r.der else seq(|x|, i => 0.0);
    forall j | 0 <= j < |x| ensures grad[j] == Partial(npv, j, x, f) {
      assert grad[j] == Slot(r.der, j);
    }
  }

  /** One pass of width one is the whole gradient's 1 bp move: pv01 = 1e-4 u . grad. */
  method Pv01FromGradient(npv: Expr, x: Vec, direction: Vec, f: ExpFn) returns (pv01: real, grad: Vec)
    requires Defined(npv, x, f) && |direction| == |x|
    ensures |grad| == |x| && pv01 == 0.0001 * Dot(direction, grad)
  {
    var npvValue;
    pv01 := Pv01(npv, x, direction, f);
    npvValue, grad := CurveGrad(npv, x, f);
  }
}
