/** The compiled vol surface (api/options.cpp): one sample grid, a flat output buffer, a memo on the curve state and a
    per-shape cache, proved equal to pricing every request cell by cell from nothing. */
module VolSurfaces {
  import opened Grids
  import opened VolKey
  import opened VolMeaning
  import opened VolModel
  import opened Wrappers

  /** A cell's resolved schedule, its dates replaced by grid positions, and where its output starts. */
  datatype CompiledCell = CompiledCell(expiry: real, tau: seq<real>, start: nat, pay: seq<nat>, offset: nat)

  datatype Layout = Layout(times: seq<real>, cells: seq<CompiledCell>, points: nat)

  /** The grid positions `at` hold exactly the times `ts`. */
  ghost predicate OnGrid(times: seq<real>, at: seq<nat>, ts: seq<real>) {
    |at| == |ts| && forall i :: 0 <= i < |at| ==> at[i] < |times| && times[at[i]] == ts[i]
  }

  ghost predicate CompiledFrom(times: seq<real>, c: CompiledCell, s: Schedule, offset: nat) {
    && c.expiry == s.expiry && c.tau == s.tau && c.offset == offset
    && c.start < |times| && times[c.start] == s.start
    && OnGrid(times, c.pay, s.pay)
  }

  ghost predicate IsLayout(l: Layout, defs: seq<VolCell>, scheds: seq<Schedule>) {
    && |l.cells| == |defs| == |scheds|
    && l.points == Offset(defs, |defs|)
    && forall i :: 0 <= i < |defs| ==> CompiledFrom(l.times, l.cells[i], scheds[i], Offset(defs, i))
  }

  // ---- construction ----

  ghost predicate Covers(times: seq<real>, s: Schedule) {
    s.start in times && forall t :: t in s.pay ==> t in times
  }

  /** Resolves every cell once and collects all schedule times. */
  method Resolve(k: Kernel, spec: Spec) returns (r: Result<seq<Schedule>>, times: seq<real>)
    ensures r == Resolved(k, spec)
    ensures r.Ok? ==> forall s :: s in r.value ==> Covers(times, s)
  {
    times := [];
    if spec.index == "" {
      return Refused(NoIndex), times;
    }
    if !k.opens(spec.valueDate, spec.currency, spec.index) {
      return Refused(NoProduct), times;
    }
    var raw: seq<Schedule> := [];
    var n := |spec.cells|;
    for i := 0 to n
      invariant Schedules(k, spec, i) == Ok(raw)
      invariant forall s :: s in raw ==> Covers(times, s)
    {
      match ScheduleOf(k, spec, i)
      case None =>
        RefusalStays(k, spec, i + 1, n);
        return Refused(BadCell(i)), times;
      case Some(s) =>
        times := times + [s.start] + s.pay;
        raw := raw + [s];
    }
    r := Ok(raw);
  }

  lemma {:induction false} RefusalStays(k: Kernel, spec: Spec, m: nat, n: nat)
    requires m <= n <= |spec.cells| && Schedules(k, spec, m).Refused?
    ensures Schedules(k, spec, n) == Schedules(k, spec, m)
  {
    if m < n {
      RefusalStays(k, spec, m, n - 1);
    }
  }

  method Locate(times: seq<real>, ts: seq<real>) returns (at: seq<nat>)
    requires Increasing(times) && forall t :: t in ts ==> t in times
    ensures OnGrid(times, at, ts)
  {
    at := [];
    var n := |ts|;
    for i := 0 to n
      invariant OnGrid(times, at, ts[..i])
    {
      LowerBoundHits(times, ts[i]);
      at := at + [LowerBound(times, ts[i])];
    }
    assert ts[..n] == ts;
  }

  method Arrange(defs: seq<VolCell>, scheds: seq<Schedule>, collected: seq<real>) returns (l: Layout)
    requires |defs| == |scheds|
    requires forall s :: s in scheds ==> Covers(collected, s)
    ensures IsLayout(l, defs, scheds)
  {
    Sorts(collected);
    var times := SortDistinct(collected);
    var cells: seq<CompiledCell> := [];
    var pt := 0;
    var n := |defs|;
    for i := 0 to n
      invariant |cells| == i && pt == Offset(defs, i)
      invariant CompiledUpTo(times, cells, defs, scheds)
    {
      assert Covers(collected, scheds[i]);
      var c := CompileCell(times, scheds[i], pt);
      CompiledOneMore(times, cells, defs, scheds, c);
      cells := cells + [c];
      pt := pt + Count(defs[i]);
    }
    l := Layout(times, cells, pt);
  }

  ghost predicate CompiledUpTo(times: seq<real>, cells: seq<CompiledCell>, defs: seq<VolCell>, scheds: seq<Schedule>) {
    |cells| <= |defs| == |scheds| && forall c :: 0 <= c < |cells| ==>
      CompiledFrom(times, cells[c], scheds[c], Offset(defs, c))
  }

  lemma CompiledOneMore(times: seq<real>, cells: seq<CompiledCell>, defs: seq<VolCell>, scheds: seq<Schedule>,
                        c: CompiledCell)
    requires CompiledUpTo(times, cells, defs, scheds) && |cells| < |defs|
    requires CompiledFrom(times, c, scheds[|cells|], Offset(defs, |cells|))
    ensures CompiledUpTo(times, cells + [c], defs, scheds)
  {
    forall j | 0 <= j < |cells| + 1 ensures CompiledFrom(times, (cells + [c])[j], scheds[j], Offset(defs, j)) {
      if j < |cells| {
        assert CompiledFrom(times, cells[j], scheds[j], Offset(defs, j));
      }
    }
  }

  method CompileCell(times: seq<real>, s: Schedule, offset: nat) returns (c: CompiledCell)
    requires Increasing(times) && Covers(times, s)
    ensures CompiledFrom(times, c, s, offset)
  {
    LowerBoundHits(times, s.start);
    var pay := Locate(times, s.pay);
    c := CompiledCell(s.expiry, s.tau, LowerBound(times, s.start), pay, offset);
  }

  method Compile(k: Kernel, spec: Spec) returns (r: Result<VolSurface>)
    ensures r.Refused? <==> Resolved(k, spec).Refused?
    ensures r.Refused? ==> r.why == Resolved(k, spec).why
    ensures r.Ok? ==>
      fresh(r.value) && fresh(r.value.Repr()) && r.value.Valid() && r.value.kernel == k && r.value.origin == spec
    ensures r.Ok? ==> r.value.defs == spec.cells && r.value.stamp == []
  {
    var scheds, times := Resolve(k, spec);
    if scheds.Refused? {
      return Refused(scheds.why);
    }
    var l := Arrange(spec.cells, scheds.value, times);
    var s := new VolSurface(k, spec, scheds.value, l);
    r := Ok(s);
  }

  class VolSurface {
    const kernel: Kernel
    const curve: int
    const layout: Layout
    /** The vol model and strikes of each cell; replaced between reprices. */
    var defs: seq<VolCell>
    /** Per cell, at the memo's curve state. */
    const fwd: array<ForwardSwap>
    /** The curve state `fwd` was computed at; empty before the first reprice. */
    var stamp: seq<real>
    /** The output, reused by every reprice. */
    const cellForward: array<ForwardSwap>
    const expiries: seq<real>
    const points: array<Point>

    ghost const origin: Spec
    ghost const scheds: seq<Schedule>

    ghost function Repr(): set<object> {
      {this, fwd, cellForward, points}
    }

    /** What construction fixed for good: the compiled layout and the sizes of the buffers. */
    ghost predicate Built() {
      && Resolved(kernel, origin) == Ok(scheds) && curve == origin.curve
      && IsLayout(layout, origin.cells, scheds)
      && fwd.Length == cellForward.Length == |origin.cells| && points.Length == layout.points
      && fwd != cellForward
      && expiries == Expiries(scheds)
    }

    /** The memo holds what the curve at its stamp gives. */
    ghost predicate MemoTrue()
      reads this`stamp, fwd
    {
      stamp != [] ==> 0 <= curve < kernel.curves && fwd[..] == DirectForwards(kernel, stamp, curve, scheds)
    }

    ghost predicate Valid()
      reads Repr()
    {
      Built() && MemoTrue()
    }

    constructor (k: Kernel, spec: Spec, scheds: seq<Schedule>, l: Layout)
      requires Resolved(k, spec) == Ok(scheds) && IsLayout(l, spec.cells, scheds)
      ensures Valid() && fresh(Repr()) && kernel == k && origin == spec && defs == spec.cells && stamp == []
    {
      kernel, curve, layout, defs, origin, this.scheds, stamp := k, spec.curve, l, spec.cells, spec, scheds, [];
      var n := |spec.cells|;
      fwd := new ForwardSwap[n](_ => ForwardSwap(0.0, 0.0));
      cellForward := new ForwardSwap[n](_ => ForwardSwap(0.0, 0.0));
      points := new Point[l.points](_ => Point(0, 0.0, 0.0, 0.0, Greeks(0.0, 0.0, 0.0, 0.0, 0.0, 0.0), false));
      expiries := seq(|l.cells|, i requires 0 <= i < |l.cells| => l.cells[i].expiry);
      new;
      assert expiries == Expiries(scheds);
    }

    /** The surface takes the vols and strikes of a request, of its own shape or not. */
    method SetCells(cells: seq<VolCell>)
      requires Valid()
      modifies this`defs
      ensures Valid() && defs == cells && stamp == old(stamp)
    {
      defs := cells;
    }

    /** Every cell's SABR overwritten: an alpha each, rho and nu shared; a list of another length is refused. */
    method SetSabr(alpha: seq<real>, rho: real, nu: real) returns (ok: bool)
      requires Valid()
      modifies this`defs
      ensures Valid() && stamp == old(stamp)
      ensures ok <==> |alpha| == |old(defs)|
      ensures !ok ==> defs == old(defs)
      ensures ok ==> |defs| == |old(defs)| && forall i :: 0 <= i < |defs| ==>
                defs[i] == old(defs)[i].(hasSabr := true,
                                         sabr := old(defs)[i].sabr.(alpha := alpha[i], rho := rho, nu := nu))
    {
      if |alpha| != |defs| {
        return false;
      }
      var n := |defs|;
      for i := 0 to n
        invariant |defs| == n == |old(defs)| && Valid() && stamp == old(stamp)
        invariant forall c :: i <= c < n ==> defs[c] == old(defs)[c]
        invariant forall c :: 0 <= c < i ==>
                    defs[c] == old(defs)[c].(hasSabr := true,
                                             sabr := old(defs)[c].sabr.(alpha := alpha[c], rho := rho, nu := nu))
      {
        defs := defs[i := defs[i].(hasSabr := true, sabr := defs[i].sabr.(alpha := alpha[i], rho := rho, nu := nu))];
      }
      ok := true;
    }

    /** One curve sample over the grid, then each cell's forward and annuity from its positions. */
    method Refresh(x: seq<real>)
      requires Valid() && 0 <= curve < kernel.curves
      modifies this`stamp, fwd
      ensures Valid() && stamp == x && defs == old(defs) && fwd[..] == DirectForwards(kernel, x, curve, scheds)
    {
      Fill(kernel, x, curve, layout, origin.cells, scheds, fwd);
      stamp := x;
    }

    /** A reprice at curve state `x`, whatever the memo and the buffers held before. On a request of the surface's own
        shape it is the cube priced cell by cell from the curve. */
    method Reprice(x: seq<real>) returns (r: Result<Cube>)
      requires Valid()
      modifies this`stamp, fwd, cellForward, points
      ensures Valid() && defs == old(defs)
      ensures r == Repriced(kernel, layout, curve, scheds, defs, old(points[..]), x)
      ensures SameCellShapes(origin.cells, defs) ==>
        r == if 0 <= curve < kernel.curves then Ok(CubeAt(kernel, x, curve, defs, scheds)) else Refused(NoCurve)
      ensures AreSchedules(kernel, origin, scheds)
      ensures r.Ok? ==> 0 <= curve && AreForwards(kernel, x, curve, scheds, r.value.forwards)
      ensures r.Ok? && SameCellShapes(origin.cells, defs) ==>
        IsCube(kernel, x, curve, defs, scheds, Starts(defs), r.value)
    {
      SchedulesAre(kernel, origin);
      RepricedMeans(kernel, layout, curve, origin.cells, scheds, defs, points[..], x);
      if SameCellShapes(origin.cells, defs) && 0 <= curve < kernel.curves {
        RepricedIsCube(kernel, layout, curve, origin.cells, scheds, defs, points[..], x);
      }
      var warm := |stamp| == |x| && |x| > 0 && stamp == x;
      if !warm {
        if curve < 0 || curve >= kernel.curves {
          return Refused(NoCurve);
        }
        Refresh(x);
      }
      var within := PriceAll();
      r := if within then Ok(Cube(cellForward[..], expiries, points[..])) else Refused(OutOfBounds);
    }

    method PriceAll() returns (within: bool)
      requires Valid()
      modifies cellForward, points
      ensures Valid()
      ensures within <==> Written(kernel, layout, defs, fwd[..], old(points[..]), |layout.cells|).Some?
      ensures within ==> cellForward[..] == fwd[..]
      ensures within ==> Written(kernel, layout, defs, fwd[..], old(points[..]), |layout.cells|) == Some(points[..])
    {
      within := WriteCells(kernel, layout, defs, fwd, cellForward, points);
    }
  }

  // ---- the output loop ----

  ghost predicate Fits(was: seq<Point>, at: nat, part: seq<Point>) {
    at + |part| <= |was|
  }

  /** `was` with `part` written from position `at` on. */
  ghost function Overwritten(was: seq<Point>, at: nat, part: seq<Point>): (r: seq<Point>)
    requires Fits(was, at, part)
    ensures |r| == |was|
  {
    was[..at] + part + was[at + |part|..]
  }

  /** What compiled cell `i` writes when the request's cell `i` is `d`. */
  function Writes(k: Kernel, l: Layout, d: VolCell, fs: seq<ForwardSwap>, i: nat): (r: seq<Point>)
    requires i < |l.cells| == |fs|
    ensures |r| == Count(d)
  {
    CountIsStrikes(d, fs[i].rate);
    PricePoints(k, i, d, l.cells[i].expiry, fs[i], Strikes(d, fs[i].rate))
  }

  /** Cell `i` is in the request and has room for its points. */
  predicate HasRoom(l: Layout, defs: seq<VolCell>, positions: nat, i: nat)
    requires i < |l.cells|
  {
    i < |defs| && l.cells[i].offset + Count(defs[i]) <= positions
  }

  /** The output once the first `n` compiled cells have written theirs over `was`; none when one reads past the
      request's cells or writes past the output. */
  ghost function Written(k: Kernel, l: Layout, defs: seq<VolCell>, fs: seq<ForwardSwap>, was: seq<Point>,
                         n: nat): (r: Option<seq<Point>>)
    requires n <= |l.cells| == |fs|
    ensures r.Some? ==> |r.value| == |was|
  {
    if n == 0 then Some(was) else
      var before := Written(k, l, defs, fs, was, n - 1);
      if before.None? || !HasRoom(l, defs, |was|, n - 1) then None
      else Some(Overwritten(before.value, l.cells[n - 1].offset, Writes(k, l, defs[n - 1], fs, n - 1)))
  }

  /** What a surface answers for any cells, over any output left behind. */
  ghost function Repriced(k: Kernel, l: Layout, curve: int, scheds: seq<Schedule>, defs: seq<VolCell>, was: seq<Point>,
                          x: seq<real>): Result<Cube>
    requires |l.cells| == |scheds|
  {
    if !(0 <= curve < k.curves) then Refused(NoCurve) else
      var fs := DirectForwards(k, x, curve, scheds);
      match Written(k, l, defs, fs, was, |l.cells|)
      case None => Refused(OutOfBounds)
      case Some(points) => Ok(Cube(fs, Expiries(scheds), points))
  }

  /** On cells of the compiled shape the whole output is overwritten, with the points priced cell by cell. */
  lemma WrittenIsDirect(k: Kernel, l: Layout, shape: seq<VolCell>, scheds: seq<Schedule>, defs: seq<VolCell>,
                        fs: seq<ForwardSwap>, was: seq<Point>)
    requires IsLayout(l, shape, scheds) && SameCellShapes(shape, defs) && |was| == l.points && |fs| == |defs|
    ensures Written(k, l, defs, fs, was, |l.cells|) == Some(DirectPoints(k, defs, scheds, fs, |defs|))
  {
    WrittenStarts(k, l, shape, scheds, defs, fs, was, |defs|);
    WholePrefix(DirectPoints(k, defs, scheds, fs, |defs|), Written(k, l, defs, fs, was, |defs|).value);
  }

  lemma WholePrefix(a: seq<Point>, b: seq<Point>)
    requires a <= b && |a| == |b|
    ensures a == b
  {
  }

  lemma RepricedIsCube(k: Kernel, l: Layout, curve: nat, shape: seq<VolCell>, scheds: seq<Schedule>, defs: seq<VolCell>,
                       was: seq<Point>, x: seq<real>)
    requires IsLayout(l, shape, scheds) && SameCellShapes(shape, defs) && |was| == l.points && curve < k.curves
    ensures Repriced(k, l, curve, scheds, defs, was, x) == Ok(CubeAt(k, x, curve, defs, scheds))
  {
    WrittenIsDirect(k, l, shape, scheds, defs, DirectForwards(k, x, curve, scheds), was);
  }

  /** Its forward swaps are the schedules', and on cells of the compiled shape it is a cube. */
  lemma RepricedMeans(k: Kernel, l: Layout, curve: int, shape: seq<VolCell>, scheds: seq<Schedule>, defs: seq<VolCell>,
                      was: seq<Point>, x: seq<real>)
    requires IsLayout(l, shape, scheds) && |was| == l.points
    ensures var r := Repriced(k, l, curve, scheds, defs, was, x);
            && (r.Ok? ==> 0 <= curve && AreForwards(k, x, curve, scheds, r.value.forwards))
            && (r.Ok? && SameCellShapes(shape, defs) ==> IsCube(k, x, curve, defs, scheds, Starts(defs), r.value))
  {
    if 0 <= curve < k.curves {
      DirectForwardsAre(k, x, curve, scheds);
      if SameCellShapes(shape, defs) {
        RepricedIsCube(k, l, curve, shape, scheds, defs, was, x);
        CubeAtIs(k, x, curve, defs, scheds);
      }
    }
  }

  /** A request with fewer cells than the surface was compiled from makes the loop read past its end. */
  lemma TooFewCells(k: Kernel, l: Layout, curve: nat, scheds: seq<Schedule>, defs: seq<VolCell>, was: seq<Point>,
                    x: seq<real>)
    requires |defs| < |l.cells| == |scheds| && curve < k.curves
    ensures Repriced(k, l, curve, scheds, defs, was, x) == Refused(OutOfBounds)
  {
    var fs := DirectForwards(k, x, curve, scheds);
    StaysOut(k, l, defs, fs, was, |defs| + 1, |l.cells|);
  }

  lemma {:induction false} WrittenStarts(k: Kernel, l: Layout, shape: seq<VolCell>, scheds: seq<Schedule>,
                                         defs: seq<VolCell>, fs: seq<ForwardSwap>, was: seq<Point>, n: nat)
    requires IsLayout(l, shape, scheds) && SameCellShapes(shape, defs) && |was| == l.points && |fs| == |defs|
    requires n <= |defs|
    ensures Written(k, l, defs, fs, was, n).Some?
    ensures DirectPoints(k, defs, scheds, fs, n) <= Written(k, l, defs, fs, was, n).value
    ensures |DirectPoints(k, defs, scheds, fs, n)| == Offset(shape, n)
  {
    if n > 0 {
      WrittenStarts(k, l, shape, scheds, defs, fs, was, n - 1);
      Placed(l, shape, defs, scheds, n - 1);
      var before := Written(k, l, defs, fs, was, n - 1).value;
      OverwritePrefix(before, DirectPoints(k, defs, scheds, fs, n - 1), Writes(k, l, defs[n - 1], fs, n - 1));
    }
  }

  /** The output loop: every compiled cell's forward and points, each at its own positions. */
  method WriteCells(k: Kernel, l: Layout, defs: seq<VolCell>, fwd: array<ForwardSwap>, cellForward: array<ForwardSwap>,
                    points: array<Point>) returns (within: bool)
    requires fwd.Length == cellForward.Length == |l.cells| && fwd != cellForward
    modifies cellForward, points
    ensures within <==> Written(k, l, defs, fwd[..], old(points[..]), |l.cells|).Some?
    ensures within ==> cellForward[..] == fwd[..]
    ensures within ==> Written(k, l, defs, fwd[..], old(points[..]), |l.cells|) == Some(points[..])
  {
    var n := |l.cells|;
    ghost var f, was := fwd[..], points[..];
    for i := 0 to n
      invariant fwd[..] == f && cellForward[..i] == f[..i]
      invariant Written(k, l, defs, f, was, i) == Some(points[..])
    {
      if !HasRoom(l, defs, points.Length, i) {
        StaysOut(k, l, defs, f, was, i + 1, n);
        return false;
      }
      PriceCell(k, i, defs[i], l.cells[i].expiry, fwd[i], points, l.cells[i].offset);
      cellForward[i] := fwd[i];
    }
    assert cellForward[..n] == cellForward[..] && f[..n] == f;
    within := true;
  }

  lemma {:induction false} StaysOut(k: Kernel, l: Layout, defs: seq<VolCell>, fs: seq<ForwardSwap>, was: seq<Point>,
                                    m: nat, n: nat)
    requires m <= n <= |l.cells| == |fs| && Written(k, l, defs, fs, was, m).None?
    ensures Written(k, l, defs, fs, was, n).None?
  {
    if m < n {
      StaysOut(k, l, defs, fs, was, m, n - 1);
    }
  }

  /** A compiled cell stands at its offset, with room for as many points as its shape has. */
  lemma Placed(l: Layout, shape: seq<VolCell>, defs: seq<VolCell>, scheds: seq<Schedule>, i: nat)
    requires IsLayout(l, shape, scheds) && SameCellShapes(shape, defs) && i < |defs|
    ensures l.cells[i].expiry == scheds[i].expiry && l.cells[i].offset == Offset(shape, i)
    ensures Count(defs[i]) == Count(shape[i]) && Offset(shape, i) + Count(shape[i]) <= l.points
  {
    assert CompiledFrom(l.times, l.cells[i], scheds[i], Offset(shape, i));
    assert SameCellShape(shape[i], defs[i]);
    OffsetRises(shape, i, |shape|);
  }

  /** Writing the next element after `part` extends what was written. */
  lemma OverwriteOne(was: seq<Point>, at: nat, part: seq<Point>, p: Point)
    requires Fits(was, at, part + [p])
    ensures Overwritten(was, at, part)[at + |part| := p] == Overwritten(was, at, part + [p])
  {
  }

  lemma OverwritePrefix(was: seq<Point>, done: seq<Point>, part: seq<Point>)
    requires done <= was && Fits(was, |done|, part)
    ensures done + part <= Overwritten(was, |done|, part)
  {
  }

  /** Writes one point per strike at the next positions, `done` being what stands from `base` on so far. */
  method PriceStrikes(k: Kernel, ci: nat, d: VolCell, expiry: real, f: ForwardSwap, strikes: seq<real>,
                      points: array<Point>, at: nat, ghost was: seq<Point>, ghost base: nat, ghost done: seq<Point>)
    returns (next: nat)
    requires Fits(was, base, done + PricePoints(k, ci, d, expiry, f, strikes))
    requires at == base + |done| && points[..] == Overwritten(was, base, done)
    modifies points
    ensures next == at + |strikes|
    ensures points[..] == Overwritten(was, base, done + PricePoints(k, ci, d, expiry, f, strikes))
  {
    next := at;
    var n := |strikes|;
    ghost var priced := PricePoints(k, ci, d, expiry, f, strikes);
    ghost var so := done;
    for i := 0 to n
      invariant next == at + i && so == done + priced[..i]
      invariant points[..] == Overwritten(was, base, so)
    {
      OverwriteOne(was, base, so, priced[i]);
      points[next] := PricePoint(k, ci, d, expiry, f, strikes[i]);
      next, so := next + 1, so + [priced[i]];
    }
    assert priced[..n] == priced;
  }

  /** One cell: its absolute strikes, its moneyness strikes, and the ATM point asked for or defaulted to. */
  method PriceCell(k: Kernel, ci: nat, d: VolCell, expiry: real, f: ForwardSwap, points: array<Point>, at: nat)
    requires at + Count(d) <= points.Length
    modifies points
    ensures |PricePoints(k, ci, d, expiry, f, Strikes(d, f.rate))| == Count(d)
    ensures points[..] == Overwritten(old(points[..]), at, PricePoints(k, ci, d, expiry, f, Strikes(d, f.rate)))
  {
    CountIsStrikes(d, f.rate);
    ghost var was, atm := points[..], if AddsAtm(d) then [f.rate] else [];
    ghost var a := PricePoints(k, ci, d, expiry, f, d.strikes);
    ghost var b := PricePoints(k, ci, d, expiry, f, Shifted(d.moneyness, f.rate));
    PricePointsSplit(k, ci, d, expiry, f, d.strikes, Shifted(d.moneyness, f.rate), atm);
    var next := PriceStrikes(k, ci, d, expiry, f, d.strikes, points, at, was, at, []);
    assert [] + a == a;
    next := PriceStrikes(k, ci, d, expiry, f, Shifted(d.moneyness, f.rate), points, next, was, at, a);
    if AddsAtm(d) {
      next := PriceStrikes(k, ci, d, expiry, f, [f.rate], points, next, was, at, a + b);
    } else {
      assert a + b + PricePoints(k, ci, d, expiry, f, atm) == a + b;
    }
  }

  lemma PricePointsSplit(k: Kernel, cell: nat, d: VolCell, expiry: real, f: ForwardSwap, a: seq<real>, b: seq<real>,
                         c: seq<real>)
    ensures PricePoints(k, cell, d, expiry, f, a + b + c) ==
            PricePoints(k, cell, d, expiry, f, a) + PricePoints(k, cell, d, expiry, f, b) +
              PricePoints(k, cell, d, expiry, f, c)
  {
  }

  /** Samples the grid once and reads every cell's forward swap off the sample. */
  method Fill(k: Kernel, x: seq<real>, curve: nat, l: Layout, ghost defs: seq<VolCell>, ghost scheds: seq<Schedule>,
              fwd: array<ForwardSwap>)
    requires IsLayout(l, defs, scheds) && fwd.Length == |l.cells|
    modifies fwd
    ensures fwd[..] == DirectForwards(k, x, curve, scheds)
  {
    var disc := Discounts(k, x, curve, l.times);
    var n := |l.cells|;
    ghost var direct := DirectForwards(k, x, curve, scheds);
    for i := 0 to n
      invariant fwd[..i] == direct[..i]
    {
      CompiledForward(k, x, curve, l, defs, scheds, i);
      var c := l.cells[i];
      var dfPay := Gather(disc, c.pay);
      fwd[i] := Forward(disc[c.start], dfPay[|dfPay| - 1], dfPay, c.tau);
    }
    assert fwd[..] == fwd[..n] && direct == direct[..n];
  }

  method Gather(disc: seq<real>, at: seq<nat>) returns (df: seq<real>)
    requires forall i :: 0 <= i < |at| ==> at[i] < |disc|
    ensures df == Gathered(disc, at)
  {
    df := [];
    var n := |at|;
    for i := 0 to n
      invariant df == Gathered(disc, at[..i])
    {
      df := df + [disc[at[i]]];
    }
    assert at[..n] == at;
  }

  function Gathered(disc: seq<real>, at: seq<nat>): (df: seq<real>)
    requires forall i :: 0 <= i < |at| ==> at[i] < |disc|
    ensures |df| == |at| && forall i :: 0 <= i < |df| ==> df[i] == disc[at[i]]
  {
    seq(|at|, i requires 0 <= i < |at| => disc[at[i]])
  }

  /** A forward swap read off the one grid sample at a cell's positions is the one asked of the curve at its dates. */
  lemma CompiledForward(k: Kernel, x: seq<real>, curve: nat, l: Layout, defs: seq<VolCell>, scheds: seq<Schedule>,
                        i: nat)
    requires IsLayout(l, defs, scheds) && i < |defs|
    ensures var c, disc := l.cells[i], Discounts(k, x, curve, l.times);
            && c.start < |disc| && (forall j :: 0 <= j < |c.pay| ==> c.pay[j] < |disc|)
            && |c.pay| == |c.tau| > 0
            && Forward(disc[c.start], Gathered(disc, c.pay)[|c.pay| - 1], Gathered(disc, c.pay), c.tau)
               == DirectForwards(k, x, curve, scheds)[i]
  {
    var c, s, disc := l.cells[i], scheds[i], Discounts(k, x, curve, l.times);
    assert CompiledFrom(l.times, c, s, Offset(defs, i));
    assert Gathered(disc, c.pay) == Discounts(k, x, curve, s.pay);
  }
}
