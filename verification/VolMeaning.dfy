/** What a priced cube says, in the kernel's own discount factors and vols: each cell's forward swap, and each of its
    points. */
module VolMeaning {
  import opened VolModel
  import opened Wrappers

  // ---- the annuity ----

  /** The accruals times the discount factors of their payment dates, first payment first. */
  ghost function Sum(k: Kernel, x: seq<real>, curve: nat, pay: seq<real>, tau: seq<real>): real
    requires |pay| == |tau|
  {
    if pay == [] then 0.0 else tau[0] * k.discount(x, curve, pay[0]) + Sum(k, x, curve, pay[1..], tau[1..])
  }

  /** Over a schedule in two parts an annuity is the sum of the parts'; one payment's is its accrual times its discount
      factor, and none's is zero. */
  lemma {:induction false} AnnuityAdds(tau: seq<real>, df: seq<real>, more: seq<real>, moreDf: seq<real>)
    requires |tau| == |df| && |more| == |moreDf|
    ensures Annuity(tau + more, df + moreDf) == Annuity(tau, df) + Annuity(more, moreDf)
    ensures Annuity([], []) == 0.0 && forall t, d :: Annuity([t], [d]) == t * d
    decreases |more|
  {
    forall t, d ensures Annuity([t], [d]) == t * d {
      assert [t][..0] == [] && [d][..0] == [];
    }
    if more == [] {
      assert tau + more == tau && df + moreDf == df;
    } else {
      var n := |more| - 1;
      AnnuityAdds(tau, df, more[..n], moreDf[..n]);
      assert (tau + more)[..|tau| + n] == tau + more[..n];
      assert (df + moreDf)[..|df| + n] == df + moreDf[..n];
    }
  }

  ghost predicate IsBlend(c: real, df: seq<real>, d: real, other: seq<real>, r: seq<real>) {
    |r| == |df| == |other| && forall i :: 0 <= i < |r| ==> r[i] == c * df[i] + d * other[i]
  }

  /** It is linear in the discount factors. */
  lemma {:induction false} AnnuityIsLinear(tau: seq<real>, c: real, df: seq<real>, d: real, other: seq<real>,
                                           r: seq<real>)
    requires |tau| == |df| == |other| == |r| && IsBlend(c, df, d, other, r)
    ensures Annuity(tau, r) == c * Annuity(tau, df) + d * Annuity(tau, other)
    decreases |tau|
  {
    if tau != [] {
      var n := |tau| - 1;
      AnnuityIsLinear(tau[..n], c, df[..n], d, other[..n], r[..n]);
      BlendOne(tau[n], c, df[n], d, other[n], Annuity(tau[..n], df[..n]), Annuity(tau[..n], other[..n]));
    }
  }

  lemma BlendOne(t: real, c: real, p: real, d: real, q: real, a: real, b: real)
    ensures c * a + d * b + t * (c * p + d * q) == c * (a + t * p) + d * (b + t * q)
  {
    assert t * (c * p + d * q) == c * (t * p) + d * (t * q);
  }

  lemma {:induction false} AnnuityIsSum(k: Kernel, x: seq<real>, curve: nat, pay: seq<real>, tau: seq<real>)
    requires |pay| == |tau|
    ensures Annuity(tau, Discounts(k, x, curve, pay)) == Sum(k, x, curve, pay, tau)
    decreases |pay|
  {
    var df := Discounts(k, x, curve, pay);
    if pay == [] {
      assert df == [] && tau == [];
    } else {
      AnnuityIsSum(k, x, curve, pay[1..], tau[1..]);
      AnnuityAdds([tau[0]], [df[0]], tau[1..], df[1..]);
      assert tau == [tau[0]] + tau[1..] && df == [df[0]] + df[1..];
      assert df[1..] == Discounts(k, x, curve, pay[1..]);
    }
  }

  // ---- a cell ----

  /** The forward swap: its annuity is the accrual-weighted sum of the payment dates' discount factors, and its rate
      times that is what the discount factor loses between the start and the last payment. A swap whose annuity is not
      positive has rate zero. */
  ghost predicate IsForward(k: Kernel, x: seq<real>, curve: nat, s: Schedule, f: ForwardSwap) {
    && f.annuity == Sum(k, x, curve, s.pay, s.tau)
    && (f.annuity > 0.0 ==>
          f.rate * f.annuity == k.discount(x, curve, s.start) - k.discount(x, curve, s.pay[|s.pay| - 1]))
    && (f.annuity <= 0.0 ==> f.rate == 0.0)
  }

  /** Every cell's forward swap, whatever the vols and strikes. */
  ghost predicate AreForwards(k: Kernel, x: seq<real>, curve: nat, scheds: seq<Schedule>, fs: seq<ForwardSwap>) {
    |fs| == |scheds| && forall i :: 0 <= i < |fs| ==> IsForward(k, x, curve, scheds[i], fs[i])
  }

  /** Point j of a cell: the cell's strikes, then its moneynesses above the forward rate, then the rate itself when it
      is asked for or nothing else is. */
  ghost predicate IsStrike(d: VolCell, rate: real, j: nat, strike: real) {
    && (j < |d.strikes| ==> strike == d.strikes[j])
    && (|d.strikes| <= j < |d.strikes| + |d.moneyness| ==>
          10000.0 * (strike - rate) == d.moneyness[j - |d.strikes|])
    && (j >= |d.strikes| + |d.moneyness| ==> strike == rate)
  }

  /** A point at a strike: its moneyness in basis points, its vol, its side and what the Bachelier pass makes of
      them. */
  ghost predicate IsPoint(k: Kernel, cell: nat, d: VolCell, expiry: real, f: ForwardSwap, j: nat, p: Point) {
    && p.cell == cell && IsStrike(d, f.rate, j, p.strike) && p.moneynessBp == 10000.0 * (p.strike - f.rate)
    && (d.hasSabr ==> p.vol == k.sabrVol(f.rate, p.strike, expiry, d.sabr))
    && (!d.hasSabr ==> p.vol == d.normalVol)
    && (p.payer <==> if d.payerSet then d.payer else p.strike >= f.rate)
    && p.greeks == k.greeks(f.rate, p.strike, p.vol, expiry, f.annuity, p.payer)
  }

  /** How many points a cell has: at least one. */
  ghost predicate HasPoints(d: VolCell, n: nat) {
    n == |d.strikes| + |d.moneyness| + if d.atm || (d.strikes == [] && d.moneyness == []) then 1 else 0
  }

  /** Cell i's output starts at `start` and holds its points one after another. */
  ghost predicate HoldsCell(k: Kernel, i: nat, d: VolCell, expiry: real, f: ForwardSwap, points: seq<Point>,
                            start: nat, end: nat) {
    && start <= end <= |points| && HasPoints(d, end - start)
    && forall at :: start <= at < end ==> IsPoint(k, i, d, expiry, f, at - start, points[at])
  }

  /** The cube, cell by cell; `starts` are the cells' first positions in the flat output, one after another. */
  ghost predicate IsCube(k: Kernel, x: seq<real>, curve: nat, cells: seq<VolCell>, scheds: seq<Schedule>,
                         starts: seq<nat>, cube: Cube) {
    && |cube.forwards| == |cube.expiries| == |scheds| == |cells| == |starts| - 1
    && starts[0] == 0 && starts[|cells|] == |cube.points|
    && AreForwards(k, x, curve, scheds, cube.forwards)
    && (forall i :: 0 <= i < |cells| ==> cube.expiries[i] == scheds[i].expiry)
    && (forall i, n :: 0 <= i < |cells| && n == i + 1 ==>
          HoldsCell(k, i, cells[i], scheds[i].expiry, cube.forwards[i], cube.points, starts[i], starts[n]))
  }

  lemma DirectForwardIs(k: Kernel, x: seq<real>, curve: nat, s: Schedule)
    ensures IsForward(k, x, curve, s, DirectForward(k, x, curve, s))
  {
    AnnuityIsSum(k, x, curve, s.pay, s.tau);
  }

  lemma DirectForwardsAre(k: Kernel, x: seq<real>, curve: nat, scheds: seq<Schedule>)
    ensures AreForwards(k, x, curve, scheds, DirectForwards(k, x, curve, scheds))
  {
    forall i | 0 <= i < |scheds| ensures IsForward(k, x, curve, scheds[i], DirectForwards(k, x, curve, scheds)[i]) {
      DirectForwardIs(k, x, curve, scheds[i]);
    }
  }

  lemma PricedPointIs(k: Kernel, cell: nat, d: VolCell, expiry: real, f: ForwardSwap, j: nat)
    requires j < Count(d) == |Strikes(d, f.rate)|
    ensures IsPoint(k, cell, d, expiry, f, j, PricePoint(k, cell, d, expiry, f, Strikes(d, f.rate)[j]))
  {
  }

  ghost function Starts(cells: seq<VolCell>): (starts: seq<nat>)
    ensures |starts| == |cells| + 1 && forall i :: 0 <= i < |starts| ==> starts[i] == Offset(cells, i)
  {
    seq(|cells| + 1, i requires 0 <= i <= |cells| => Offset(cells, i))
  }

  lemma CellIsHeld(k: Kernel, cells: seq<VolCell>, scheds: seq<Schedule>, fs: seq<ForwardSwap>, i: nat)
    requires i < |cells| == |scheds| == |fs|
    ensures HoldsCell(k, i, cells[i], scheds[i].expiry, fs[i], DirectPoints(k, cells, scheds, fs, |cells|),
                      Offset(cells, i), Offset(cells, i + 1))
  {
    var points := DirectPoints(k, cells, scheds, fs, |cells|);
    DirectPointsLength(k, cells, scheds, fs, |cells|);
    OffsetRises(cells, i, |cells|);
    CountIsStrikes(cells[i], fs[i].rate);
    forall at | Offset(cells, i) <= at < Offset(cells, i + 1)
      ensures IsPoint(k, i, cells[i], scheds[i].expiry, fs[i], at - Offset(cells, i), points[at])
    {
      var j := at - Offset(cells, i);
      PointsAtOffset(k, cells, scheds, fs, |cells|, i, j);
      PricedPointIs(k, i, cells[i], scheds[i].expiry, fs[i], j);
    }
  }

  /** Priced from nothing, the cube is that. */
  lemma CubeAtIs(k: Kernel, x: seq<real>, curve: nat, cells: seq<VolCell>, scheds: seq<Schedule>)
    requires |cells| == |scheds|
    ensures IsCube(k, x, curve, cells, scheds, Starts(cells), CubeAt(k, x, curve, cells, scheds))
  {
    var fs := DirectForwards(k, x, curve, scheds);
    DirectPointsLength(k, cells, scheds, fs, |cells|);
    DirectForwardsAre(k, x, curve, scheds);
    forall i, n | 0 <= i < |cells| && n == i + 1
      ensures HoldsCell(k, i, cells[i], scheds[i].expiry, fs[i], DirectPoints(k, cells, scheds, fs, |cells|),
                        Offset(cells, i), Offset(cells, n))
    {
      CellIsHeld(k, cells, scheds, fs, i);
    }
  }

  // ---- an answer ----

  /** The schedules resolved for a request's cells, each for the cell's own expiry and tenor. */
  ghost predicate AreSchedules(k: Kernel, spec: Spec, scheds: seq<Schedule>) {
    |scheds| == |spec.cells| && forall i :: 0 <= i < |scheds| ==>
      k.schedule(spec.valueDate, spec.currency, spec.index, spec.cells[i].expiry, spec.cells[i].tenor) ==
      Some(scheds[i])
  }

  /** The cube of a request at a curve state. */
  ghost predicate Answers(k: Kernel, x: seq<real>, spec: Spec, cube: Cube) {
    && spec.index != "" && k.opens(spec.valueDate, spec.currency, spec.index) && 0 <= spec.curve < k.curves
    && exists scheds, starts ::
      AreSchedules(k, spec, scheds) && IsCube(k, x, spec.curve, spec.cells, scheds, starts, cube)
  }

  lemma SchedulesAre(k: Kernel, spec: Spec)
    ensures var r := Schedules(k, spec, |spec.cells|);
            && (r.Ok? <==> exists scheds :: AreSchedules(k, spec, scheds))
            && (r.Ok? ==> AreSchedules(k, spec, r.value))
  {
    var r := Schedules(k, spec, |spec.cells|);
    if r.Ok? {
      forall i | 0 <= i < |spec.cells| ensures ScheduleOf(k, spec, i) == Some(r.value[i]) {
      }
      assert AreSchedules(k, spec, r.value);
    } else {
      assert ScheduleOf(k, spec, r.why.cell) == None;
    }
  }

  /** A request is answered exactly when it names an index, its product opens, every cell resolves and its curve is
      there; and the answer is its cube. */
  ghost predicate IsAnswer(k: Kernel, x: seq<real>, spec: Spec, r: Result<Cube>) {
    && (r.Ok? <==>
          && spec.index != "" && k.opens(spec.valueDate, spec.currency, spec.index)
          && 0 <= spec.curve < k.curves && exists scheds :: AreSchedules(k, spec, scheds))
    && (r.Ok? ==> Answers(k, x, spec, r.value))
  }

  /** A request priced from nothing is. */
  lemma DirectCubeAnswers(k: Kernel, spec: Spec, x: seq<real>)
    ensures IsAnswer(k, x, spec, DirectCube(k, spec, x))
  {
    var r := DirectCube(k, spec, x);
    SchedulesAre(k, spec);
    if r.Ok? {
      var scheds := Schedules(k, spec, |spec.cells|).value;
      CubeAtIs(k, x, spec.curve, spec.cells, scheds);
      assert IsCube(k, x, spec.curve, spec.cells, scheds, Starts(spec.cells), r.value);
    }
  }
}
