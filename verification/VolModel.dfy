/** Swaption cubes priced cell by cell straight off the curve: what the compiled surface has to return. */
module VolModel {
  import opened Wrappers

  /** A cell of a vol cube (VolCubeCell). */
  datatype VolCell = VolCell(expiry: string, tenor: string, hasSabr: bool, sabr: SabrParams, normalVol: real,
                             payerSet: bool, payer: bool, strikes: seq<real>, moneyness: seq<real>, atm: bool)
  datatype SabrParams = SabrParams(alpha: real, rho: real, nu: real, beta: real)

  datatype Spec = Spec(valueDate: string, currency: string, index: string, curve: int, cells: seq<VolCell>)

  /** A resolved swaption schedule in curve time; the calendar walk gives at least one fixed payment. */
  datatype RawSchedule = RawSchedule(expiry: real, start: real, pay: seq<real>, tau: seq<real>)
  type Schedule = s: RawSchedule | s.pay != [] && |s.tau| == |s.pay| witness RawSchedule(0.0, 0.0, [0.0], [0.0])

  datatype Greeks = Greeks(price: real, vega: real, delta: real, gamma: real, vanna: real, volga: real)

  /** What the surface takes from elsewhere: the calendar walk, the curves' discount factors at a state, the SABR vol
      and the Bachelier pass. */
  datatype Kernel = Kernel(
    opens: (string, string, string) -> bool,
    schedule: (string, string, string, string, string) -> Option<Schedule>,
    curves: nat,
    discount: (seq<real>, nat, real) -> real,
    sabrVol: (real, real, real, SabrParams) -> real,
    greeks: (real, real, real, real, real, bool) -> Greeks)

  /** `OutOfBounds` is no refusal of the code's: it stands for an index past the end of a list, after which the source
      promises nothing. */
  datatype Refusal = NoIndex | NoProduct | BadCell(cell: nat) | NoCurve | OutOfBounds
  datatype Result<T> = Ok(value: T) | Refused(why: Refusal)

  datatype ForwardSwap = ForwardSwap(rate: real, annuity: real)

  /** One column entry of the output: eleven numbers written at one position. */
  datatype Point = Point(cell: nat, strike: real, moneynessBp: real, vol: real, greeks: Greeks, payer: bool)

  datatype Cube = Cube(forwards: seq<ForwardSwap>, expiries: seq<real>, points: seq<Point>)

  // ---- the forward swap ----

  function Annuity(tau: seq<real>, df: seq<real>): real
    requires |tau| == |df|
  {
    if tau == [] then 0.0 else Annuity(tau[..|tau| - 1], df[..|df| - 1]) + tau[|tau| - 1] * df[|df| - 1]
  }

  function RateOver(start: real, end: real, annuity: real): real {
    if annuity > 0.0 then (start - end) / annuity else 0.0
  }

  function Forward(start: real, end: real, df: seq<real>, tau: seq<real>): ForwardSwap
    requires |tau| == |df|
  {
    ForwardSwap(RateOver(start, end, Annuity(tau, df)), Annuity(tau, df))
  }

  /** Discount factors of one curve at given times. */
  function Discounts(k: Kernel, x: seq<real>, curve: nat, times: seq<real>): (df: seq<real>)
    ensures |df| == |times| && forall i :: 0 <= i < |df| ==> df[i] == k.discount(x, curve, times[i])
  {
    seq(|times|, i requires 0 <= i < |times| => k.discount(x, curve, times[i]))
  }

  /** A cell's forward swap, each discount factor asked of the curve at the cell's own dates. */
  function DirectForward(k: Kernel, x: seq<real>, curve: nat, s: Schedule): ForwardSwap {
    var df := Discounts(k, x, curve, s.pay);
    Forward(k.discount(x, curve, s.start), df[|df| - 1], df, s.tau)
  }

  // ---- the strikes of a cell ----

  function Shifted(bp: seq<real>, forward: real): (r: seq<real>)
    ensures |r| == |bp| && forall i :: 0 <= i < |r| ==> r[i] == forward + bp[i] / 10000.0
  {
    seq(|bp|, i requires 0 <= i < |bp| => forward + bp[i] / 10000.0)
  }

  predicate AddsAtm(d: VolCell) {
    d.atm || (d.strikes == [] && d.moneyness == [])
  }

  function Strikes(d: VolCell, forward: real): seq<real> {
    d.strikes + Shifted(d.moneyness, forward) + if AddsAtm(d) then [forward] else []
  }

  /** The output positions the constructor sets aside for a cell. */
  function Count(d: VolCell): (n: nat)
    ensures n > 0
  {
    var n := |d.strikes| + |d.moneyness| + if d.atm then 1 else 0;
    if n == 0 then 1 else n
  }

  lemma CountIsStrikes(d: VolCell, forward: real)
    ensures Count(d) == |Strikes(d, forward)|
  {
  }

  function PricePoint(k: Kernel, cell: nat, d: VolCell, expiry: real, f: ForwardSwap, strike: real): Point {
    var payer := if d.payerSet then d.payer else strike >= f.rate;
    var vol := if d.hasSabr then k.sabrVol(f.rate, strike, expiry, d.sabr) else d.normalVol;
    Point(cell, strike, (strike - f.rate) * 10000.0, vol, k.greeks(f.rate, strike, vol, expiry, f.annuity, payer),
          payer)
  }

  function PricePoints(k: Kernel, cell: nat, d: VolCell, expiry: real, f: ForwardSwap,
                       strikes: seq<real>): (r: seq<Point>)
    ensures |r| == |strikes|
    ensures forall i :: 0 <= i < |r| ==> r[i] == PricePoint(k, cell, d, expiry, f, strikes[i])
  {
    seq(|strikes|, i requires 0 <= i < |strikes| => PricePoint(k, cell, d, expiry, f, strikes[i]))
  }

  // ---- the cube ----

  function ScheduleOf(k: Kernel, spec: Spec, cell: nat): Option<Schedule>
    requires cell < |spec.cells|
  {
    k.schedule(spec.valueDate, spec.currency, spec.index, spec.cells[cell].expiry, spec.cells[cell].tenor)
  }

  /** The schedules of the first `n` cells, or the first cell that is refused. */
  function Schedules(k: Kernel, spec: Spec, n: nat): (r: Result<seq<Schedule>>)
    requires n <= |spec.cells|
    ensures r.Ok? ==> |r.value| == n && forall i :: 0 <= i < n ==> ScheduleOf(k, spec, i) == Some(r.value[i])
    ensures r.Refused? ==> r.why.BadCell? && r.why.cell < n && ScheduleOf(k, spec, r.why.cell) == None
  {
    if n == 0 then Ok([]) else
      var before := Schedules(k, spec, n - 1);
      if before.Refused? then before
      else match ScheduleOf(k, spec, n - 1)
        case None => Refused(BadCell(n - 1))
        case Some(s) => Ok(before.value + [s])
  }

  /** What a fresh surface needs: an index, a value date and product, and every cell's schedule. */
  function Resolved(k: Kernel, spec: Spec): (r: Result<seq<Schedule>>)
    ensures r.Ok? ==> |r.value| == |spec.cells|
  {
    if spec.index == "" then Refused(NoIndex)
    else if !k.opens(spec.valueDate, spec.currency, spec.index) then Refused(NoProduct)
    else Schedules(k, spec, |spec.cells|)
  }

  function DirectForwards(k: Kernel, x: seq<real>, curve: nat, scheds: seq<Schedule>): (r: seq<ForwardSwap>)
    ensures |r| == |scheds| && forall i :: 0 <= i < |r| ==> r[i] == DirectForward(k, x, curve, scheds[i])
  {
    seq(|scheds|, i requires 0 <= i < |scheds| => DirectForward(k, x, curve, scheds[i]))
  }

  function CellPoints(k: Kernel, cell: nat, d: VolCell, s: Schedule, f: ForwardSwap): seq<Point> {
    PricePoints(k, cell, d, s.expiry, f, Strikes(d, f.rate))
  }

  /** The first `n` cells' points, one cell after another. */
  function DirectPoints(k: Kernel, cells: seq<VolCell>, scheds: seq<Schedule>, fs: seq<ForwardSwap>, n: nat): seq<Point>
    requires n <= |cells| == |scheds| == |fs|
  {
    if n == 0 then []
    else DirectPoints(k, cells, scheds, fs, n - 1) + CellPoints(k, n - 1, cells[n - 1], scheds[n - 1], fs[n - 1])
  }

  function Expiries(scheds: seq<Schedule>): (r: seq<real>)
    ensures |r| == |scheds| && forall i :: 0 <= i < |r| ==> r[i] == scheds[i].expiry
  {
    seq(|scheds|, i requires 0 <= i < |scheds| => scheds[i].expiry)
  }

  function CubeAt(k: Kernel, x: seq<real>, curve: nat, cells: seq<VolCell>, scheds: seq<Schedule>): Cube
    requires |cells| == |scheds|
  {
    var fs := DirectForwards(k, x, curve, scheds);
    Cube(fs, Expiries(scheds), DirectPoints(k, cells, scheds, fs, |cells|))
  }

  /** A cube priced from nothing at curve state `x`, with no surface, grid, memo or cache. */
  function DirectCube(k: Kernel, spec: Spec, x: seq<real>): Result<Cube> {
    var scheds := Resolved(k, spec);
    if scheds.Refused? then Refused(scheds.why)
    else if !(0 <= spec.curve < k.curves) then Refused(NoCurve)
    else Ok(CubeAt(k, x, spec.curve, spec.cells, scheds.value))
  }

  // ---- shapes ----

  predicate SameCellShape(a: VolCell, b: VolCell) {
    && a.expiry == b.expiry && a.tenor == b.tenor
    && |a.strikes| == |b.strikes| && |a.moneyness| == |b.moneyness| && a.atm == b.atm
  }

  ghost predicate SameCellShapes(a: seq<VolCell>, b: seq<VolCell>) {
    |a| == |b| && forall i :: 0 <= i < |a| ==> SameCellShape(a[i], b[i])
  }

  /** Equal in everything a surface is compiled from. */
  ghost predicate SameShape(a: Spec, b: Spec) {
    && a.valueDate == b.valueDate && a.currency == b.currency && a.index == b.index && a.curve == b.curve
    && SameCellShapes(a.cells, b.cells)
  }

  lemma {:induction false} SameShapeSchedules(k: Kernel, a: Spec, b: Spec, n: nat)
    requires SameShape(a, b) && n <= |a.cells|
    ensures Schedules(k, a, n) == Schedules(k, b, n)
  {
    if n > 0 {
      SameShapeSchedules(k, a, b, n - 1);
      assert SameCellShape(a.cells[n - 1], b.cells[n - 1]);
    }
  }

  lemma SameShapeResolved(k: Kernel, a: Spec, b: Spec)
    requires SameShape(a, b)
    ensures Resolved(k, a) == Resolved(k, b)
  {
    SameShapeSchedules(k, a, b, |a.cells|);
  }

  // ---- output positions ----

  /** Where the first `n` cells' output ends. */
  function Offset(cells: seq<VolCell>, n: nat): nat
    requires n <= |cells|
  {
    if n == 0 then 0 else Offset(cells, n - 1) + Count(cells[n - 1])
  }

  lemma {:induction false} OffsetRises(cells: seq<VolCell>, m: nat, n: nat)
    requires m < n <= |cells|
    ensures Offset(cells, m) + Count(cells[m]) <= Offset(cells, n)
  {
    if m < n - 1 {
      OffsetRises(cells, m, n - 1);
    }
  }

  /** The cells' output ranges partition the positions: each belongs to exactly one cell. */
  lemma {:induction false} OneOwner(cells: seq<VolCell>, slot: nat) returns (cell: nat)
    requires slot < Offset(cells, |cells|)
    ensures cell < |cells| && Offset(cells, cell) <= slot < Offset(cells, cell) + Count(cells[cell])
    ensures forall c :: 0 <= c < |cells| && Offset(cells, c) <= slot < Offset(cells, c) + Count(cells[c]) ==> c == cell
  {
    cell := 0;
    while Offset(cells, cell + 1) <= slot
      invariant cell < |cells| && Offset(cells, cell) <= slot
      decreases |cells| - cell
    {
      cell := cell + 1;
    }
    forall c | 0 <= c < |cells| && Offset(cells, c) <= slot < Offset(cells, c) + Count(cells[c]) ensures c == cell {
      if c < cell {
        OffsetRises(cells, c, cell);
      } else if cell < c {
        OffsetRises(cells, cell, c);
      }
    }
  }

  lemma {:induction false} DirectPointsLength(k: Kernel, cells: seq<VolCell>, scheds: seq<Schedule>,
                                              fs: seq<ForwardSwap>, n: nat)
    requires n <= |cells| == |scheds| == |fs|
    ensures |DirectPoints(k, cells, scheds, fs, n)| == Offset(cells, n)
  {
    if n > 0 {
      DirectPointsLength(k, cells, scheds, fs, n - 1);
      CountIsStrikes(cells[n - 1], fs[n - 1].rate);
    }
  }

  /** Reading the flat output at a cell's offset reads that cell's own points. */
  lemma {:induction false} PointsAtOffset(k: Kernel, cells: seq<VolCell>, scheds: seq<Schedule>, fs: seq<ForwardSwap>,
                                          n: nat, c: nat, j: nat)
    requires c < n <= |cells| == |scheds| == |fs| && j < Count(cells[c])
    ensures Offset(cells, c) + j < |DirectPoints(k, cells, scheds, fs, n)|
    ensures DirectPoints(k, cells, scheds, fs, n)[Offset(cells, c) + j] ==
            PricePoint(k, c, cells[c], scheds[c].expiry, fs[c], Strikes(cells[c], fs[c].rate)[j])
  {
    DirectPointsLength(k, cells, scheds, fs, n - 1);
    CountIsStrikes(cells[c], fs[c].rate);
    if c < n - 1 {
      PointsAtOffset(k, cells, scheds, fs, n - 1, c, j);
    }
  }
}
