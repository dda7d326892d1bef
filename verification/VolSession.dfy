/** The session's cube pricing (api/options.cpp): surfaces cached by key, and the swaption verb on top of it. */
module VolSessions {
  import opened VolKey
  import opened VolMeaning
  import opened VolModel
  import opened VolSurfaces
  import opened Wrappers

  datatype Request = Price(spec: Spec) | Move(x: seq<real>)

  function MovedTo(x: seq<real>, request: Request): seq<real> {
    if request.Move? then request.x else x
  }

  /** The curve state after a run of requests. */
  function StateAfter(x: seq<real>, requests: seq<Request>): seq<real>
    decreases |requests|
  {
    if requests == [] then x else StateAfter(MovedTo(x, requests[0]), requests[1..])
  }

  /** The keys filed once a request has been priced: its own joins them when a surface can be compiled from it. */
  ghost function FiledWith(k: Kernel, filed: set<string>, spec: Spec): set<string> {
    if spec.index != "" && Resolved(k, spec).Ok? then filed + {Key(spec)} else filed
  }

  /** The guard under which the cache cannot be wrong: a request a surface could be compiled from, one refused before
      the lookup, or one whose key nothing is filed under. */
  ghost predicate Safe(filed: set<string>, spec: Spec) {
    spec.index == "" || Proper(spec) || Key(spec) !in filed
  }

  /** One priced request of a run: what a session without surface, memo or cache would answer, and whether it is
      safe. */
  datatype Expected = Expected(direct: Result<Cube>, safe: bool)

  ghost function ExpectedOf(k: Kernel, x: seq<real>, filed: set<string>, request: Request): seq<Expected> {
    if request.Move? then [] else [Expected(DirectCube(k, request.spec, x), Safe(filed, request.spec))]
  }

  ghost function FiledAfter(k: Kernel, filed: set<string>, request: Request): set<string> {
    if request.Move? then filed else FiledWith(k, filed, request.spec)
  }

  ghost function Expectations(k: Kernel, x: seq<real>, filed: set<string>, requests: seq<Request>): seq<Expected>
    decreases |requests|
  {
    if requests == [] then [] else
      ExpectedOf(k, x, filed, requests[0]) +
      Expectations(k, MovedTo(x, requests[0]), FiledAfter(k, filed, requests[0]), requests[1..])
  }

  ghost predicate Meets(answers: seq<Result<Cube>>, expected: seq<Expected>) {
    |answers| == |expected| && forall j :: 0 <= j < |answers| ==>
      (answers[j] == expected[j].direct <==> expected[j].safe)
  }

  lemma MeetsConcat(a: seq<Result<Cube>>, e: seq<Expected>, b: seq<Result<Cube>>, f: seq<Expected>)
    requires Meets(a, e) && Meets(b, f)
    ensures Meets(a + b, e + f)
  {
  }

  lemma OneRequest(k: Kernel, x: seq<real>, filed: set<string>, requests: seq<Request>, i: nat, done: seq<Expected>,
                   whole: seq<Expected>)
    requires i < |requests| && whole == done + Expectations(k, x, filed, requests[i..])
    ensures whole == done + ExpectedOf(k, x, filed, requests[i]) +
                     Expectations(k, MovedTo(x, requests[i]), FiledAfter(k, filed, requests[i]), requests[i + 1..])
    ensures StateAfter(x, requests[i..]) == StateAfter(MovedTo(x, requests[i]), requests[i + 1..])
  {
    assert requests[i..][1..] == requests[i + 1..];
  }

  /** A run of proper requests is safe throughout. */
  lemma {:induction false} ProperRunIsSafe(k: Kernel, x: seq<real>, filed: set<string>, requests: seq<Request>)
    requires forall r :: r in requests && r.Price? ==> Proper(r.spec)
    ensures forall e :: e in Expectations(k, x, filed, requests) ==> e.safe
    decreases |requests|
  {
    if requests != [] {
      ProperRunIsSafe(k, MovedTo(x, requests[0]), FiledAfter(k, filed, requests[0]), requests[1..]);
    }
  }

  /** A cached surface prices this session's curves and was compiled from a request with that very key. */
  ghost predicate Filed(k: Kernel, key: string, s: VolSurface)
    reads s.Repr()
  {
    s.Valid() && s.kernel == k && Key(s.origin) == key
  }

  ghost predicate Apart(a: VolSurface, b: VolSurface) {
    a.Repr() !! b.Repr()
  }

  ghost predicate AllApart(surfaces: map<string, VolSurface>, buffers: set<object>) {
    && (forall key :: key in surfaces ==> surfaces[key].Repr() <= buffers)
    && (forall key, other :: key in surfaces && other in surfaces && key != other ==>
        Apart(surfaces[key], surfaces[other]))
  }

  lemma OneMoreApart(surfaces: map<string, VolSurface>, buffers: set<object>, key: string, made: VolSurface)
    requires AllApart(surfaces, buffers) && key !in surfaces && made.Repr() !! buffers
    ensures AllApart(surfaces[key := made], buffers + made.Repr())
  {
    forall other | other in surfaces ensures Apart(surfaces[other], made) {
      assert surfaces[other].Repr() <= buffers;
    }
  }

  /** An answer that is the direct one for a proper request, and never a fresh surface's refusal for another, is the
      direct one exactly when the request is safe. */
  lemma AnsweredSafely(k: Kernel, filed: set<string>, spec: Spec, x: seq<real>, r: Result<Cube>)
    requires Lawful(k) && spec.index != "" && (Key(spec) in filed || Resolved(k, spec).Ok?)
    requires Proper(spec) ==> r == DirectCube(k, spec, x)
    requires r.Refused? ==> r.why.NoCurve? || r.why.OutOfBounds?
    ensures r == DirectCube(k, spec, x) <==> Safe(filed, spec)
  {
    ResolvedIsProper(k, spec);
  }

  class VolSession {
    const kernel: Kernel
    /** The calibrated curve state. */
    var x: seq<real>
    var surfaces: map<string, VolSurface>
    /** Every cached surface's objects. */
    ghost var buffers: set<object>

    /** No surface shares a buffer with another, or with the session. */
    ghost predicate Separate()
      reads this
    {
      this !in buffers && AllApart(surfaces, buffers)
    }

    ghost predicate Valid()
      reads this, buffers
    {
      Separate() && Lawful(kernel) && forall key :: key in surfaces ==> Filed(kernel, key, surfaces[key])
    }

    /** Whatever was asked for, every filed surface was compiled from a proper request, so no two shapes share a key. */
    lemma EverySurfaceIsProper()
      requires Valid()
      ensures forall key :: key in surfaces ==> Proper(surfaces[key].origin)
      ensures forall key, spec :: key in surfaces && Proper(spec) && Key(spec) == key ==>
                SameShape(surfaces[key].origin, spec)
    {
      forall key | key in surfaces ensures Proper(surfaces[key].origin) {
        ResolvedIsProper(kernel, surfaces[key].origin);
        assert Filed(kernel, key, surfaces[key]);
      }
      forall key, spec | key in surfaces && Proper(spec) && Key(spec) == key
        ensures SameShape(surfaces[key].origin, spec)
      {
        assert Filed(kernel, key, surfaces[key]);
        KeyIffShape(surfaces[key].origin, spec);
      }
    }

    /** In any session that holds a surface for a proper request of two cells or more, on a curve there is, the request
        with two neighbouring cells merged is cut short: the surface is read past the end of its cells. */
    lemma MergedIsCutShort(spec: Spec, i: nat)
      requires Valid() && Proper(spec) && Key(spec) in surfaces && i + 1 < |spec.cells|
      requires 0 <= spec.curve < kernel.curves
      ensures CutShort(Merged(spec, i)) && spec.index != "" && !Safe(surfaces.Keys, Merged(spec, i))
    {
      EverySurfaceIsProper();
      BarCollides(spec, i);
      assert SameShape(surfaces[Key(spec)].origin, spec);
    }

    constructor (k: Kernel, x: seq<real>)
      requires Lawful(k)
      ensures Valid() && surfaces == map[] && buffers == {} && kernel == k && this.x == x
    {
      kernel, this.x, surfaces, buffers := k, x, map[], {};
    }

    /** Any solve: the curve state moves, the surfaces stay. */
    method MoveCurve(y: seq<real>)
      requires Valid()
      modifies this`x
      ensures Valid() && x == y
    {
      x := y;
    }

    /** The request's key is held by a surface that was compiled from more cells, on a curve there is. */
    ghost predicate CutShort(spec: Spec)
      reads this`surfaces
    {
      Key(spec) in surfaces && |spec.cells| < |surfaces[Key(spec)].origin.cells| &&
      0 <= surfaces[Key(spec)].origin.curve < kernel.curves
    }

    /** A cube through the cache is the one priced from nothing if and only if the request is safe. */
    method PriceVolCube(spec: Spec) returns (r: Result<Cube>)
      requires Valid()
      modifies this`surfaces, this`buffers, buffers
      ensures Valid() && fresh(buffers - old(buffers))
      ensures surfaces.Keys == FiledWith(kernel, old(surfaces.Keys), spec)
      ensures r == DirectCube(kernel, spec, x) <==> Safe(old(surfaces.Keys), spec)
      ensures Safe(old(surfaces.Keys), spec) ==> IsAnswer(kernel, x, spec, r)
      ensures Key(spec) !in old(surfaces) && Key(spec) in surfaces ==> surfaces[Key(spec)].origin == spec
      ensures spec.index != "" && old(CutShort(spec)) ==> r == Refused(OutOfBounds)
    {
      DirectCubeAnswers(kernel, spec, x);
      if spec.index == "" {
        return Refused(NoIndex);
      }
      ghost var filed := surfaces.Keys;
      var key := Key(spec);
      var refused := Look(key, spec);
      assert surfaces.Keys == FiledWith(kernel, filed, spec);
      if refused.Some? {
        return Refused(refused.value);
      }
      r := Serve(key, spec);
      AnsweredSafely(kernel, filed, spec, x, r);
    }

    /** Finds the surface filed under a request's key, compiling and filing one on a miss. */
    method Look(key: string, spec: Spec) returns (refused: Option<Refusal>)
      requires Valid() && key == Key(spec) && spec.index != ""
      modifies this`surfaces, this`buffers
      ensures Valid() && buffers >= old(buffers) && fresh(buffers - old(buffers))
      ensures surfaces.Keys == if refused.Some? then old(surfaces.Keys) else old(surfaces.Keys) + {key}
      ensures key in old(surfaces) ==> surfaces == old(surfaces)
      ensures refused.Some? <==> key !in old(surfaces) && Resolved(kernel, spec).Refused?
      ensures refused.Some? ==> Resolved(kernel, spec) == Refused(refused.value)
      ensures refused.None? ==> key in surfaces && (key !in old(surfaces) ==> surfaces[key].origin == spec)
    {
      if key !in surfaces {
        var made := Compile(kernel, spec);
        if made.Refused? {
          return Some(made.why);
        }
        File(key, spec, made.value);
      }
      refused := None;
    }

    method File(key: string, spec: Spec, made: VolSurface)
      requires Valid() && key !in surfaces && made.origin == spec
      requires Filed(kernel, key, made) && made.Repr() !! buffers && this !in made.Repr()
      modifies this`surfaces, this`buffers
      ensures Valid() && surfaces == old(surfaces)[key := made] && buffers == old(buffers) + made.Repr()
    {
      OneMoreApart(surfaces, buffers, key, made);
      surfaces, buffers := surfaces[key := made], buffers + made.Repr();
      forall other | other in surfaces ensures Filed(kernel, other, surfaces[other]) {
        assert other != key ==> old(Filed(kernel, other, surfaces[other]));
      }
    }

    /** The filed surface takes the request's vols and strikes and reprices: the direct cube when the request is proper,
        and otherwise never the refusal that a fresh surface would give. */
    method Serve(key: string, spec: Spec) returns (r: Result<Cube>)
      requires Valid() && key == Key(spec) && key in surfaces
      modifies buffers
      ensures Valid()
      ensures Proper(spec) ==> r == DirectCube(kernel, spec, x)
      ensures r.Refused? ==> r.why.NoCurve? || r.why.OutOfBounds?
      ensures CutShort(spec) ==> r == Refused(OutOfBounds)
    {
      var surface := surfaces[key];
      ResolvedIsProper(kernel, surface.origin);
      if Proper(spec) {
        KeyIffShape(surface.origin, spec);
      }
      r := Ask(surface, spec, x);
      forall other | other in surfaces ensures Filed(kernel, other, surfaces[other]) {
        assert other != key ==> Apart(surfaces[other], surface) && old(Filed(kernel, other, surfaces[other]));
      }
    }

    /** Over any run of any requests and curve moves, each answer is the one priced from nothing if and only if its
        request is safe. */
    method Run(requests: seq<Request>) returns (answers: seq<Result<Cube>>)
      requires Valid()
      modifies this, buffers
      ensures Valid() && fresh(buffers - old(buffers)) && x == StateAfter(old(x), requests)
      ensures Meets(answers, Expectations(kernel, old(x), old(surfaces.Keys), requests))
    {
      answers := [];
      ghost var done: seq<Expected> := [];
      ghost var whole := Expectations(kernel, x, surfaces.Keys, requests);
      var n := |requests|;
      assert requests[0..] == requests;
      for i := 0 to n
        invariant Valid() && fresh(buffers - old(buffers)) && Meets(answers, done)
        invariant whole == done + Expectations(kernel, x, surfaces.Keys, requests[i..])
        invariant StateAfter(old(x), requests) == StateAfter(x, requests[i..])
      {
        OneRequest(kernel, x, surfaces.Keys, requests, i, done, whole);
        ghost var here := ExpectedOf(kernel, x, surfaces.Keys, requests[i]);
        var r := Handle(requests[i]);
        MeetsConcat(answers, done, r, here);
        answers, done := answers + r, done + here;
      }
    }

    method Handle(request: Request) returns (answers: seq<Result<Cube>>)
      requires Valid()
      modifies this, buffers
      ensures Valid() && fresh(buffers - old(buffers))
      ensures x == MovedTo(old(x), request) && surfaces.Keys == FiledAfter(kernel, old(surfaces.Keys), request)
      ensures Meets(answers, ExpectedOf(kernel, old(x), old(surfaces.Keys), request))
    {
      match request
      case Move(y) =>
        MoveCurve(y);
        answers := [];
      case Price(spec) =>
        var r := PriceVolCube(spec);
        answers := [r];
    }
  }

  method Ask(surface: VolSurface, spec: Spec, x: seq<real>) returns (r: Result<Cube>)
    requires Filed(surface.kernel, Key(spec), surface)
    modifies surface.Repr()
    ensures Filed(surface.kernel, Key(spec), surface)
    ensures SameShape(surface.origin, spec) ==> r == DirectCube(surface.kernel, spec, x)
    ensures r.Refused? ==> r.why.NoCurve? || r.why.OutOfBounds?
    ensures |spec.cells| < |surface.origin.cells| && 0 <= surface.origin.curve < surface.kernel.curves ==>
            r == Refused(OutOfBounds)
  {
    if SameShape(surface.origin, spec) {
      SameShapeResolved(surface.kernel, surface.origin, spec);
    }
    surface.SetCells(spec.cells);
    if |spec.cells| < |surface.origin.cells| && 0 <= surface.curve < surface.kernel.curves {
      TooFewCells(surface.kernel, surface.layout, surface.curve, surface.scheds, surface.defs, surface.points[..], x);
    }
    r := surface.Reprice(x);
  }

  /** A run with an unsafe request in it, in any session: price any request of two cells or more that a surface can be
      compiled from, then the one with two neighbouring cells merged into one text. The second answer is not the direct
      one, which is a refusal. */
  lemma BarBites(k: Kernel, x: seq<real>, filed: set<string>, spec: Spec, i: nat)
    requires Lawful(k) && Resolved(k, spec).Ok? && i + 1 < |spec.cells|
    ensures var e := Expectations(k, x, filed, [Price(spec), Price(Merged(spec, i))]);
            |e| == 2 && e[0].safe && !e[1].safe && e[1].direct.Refused?
  {
    var requests := [Price(spec), Price(Merged(spec, i))];
    var later := FiledAfter(k, filed, requests[0]);
    BarCollides(spec, i);
    ResolvedIsProper(k, spec);
    ImproperRefused(k, Merged(spec, i), x);
    assert requests[1..] == [Price(Merged(spec, i))] && requests[1..][1..] == [];
    assert Expectations(k, x, later, requests[1..]) == ExpectedOf(k, x, later, requests[1]) + [];
  }

  /** A fresh surface refuses an improper request, and never by reading out of bounds. */
  lemma ImproperRefused(k: Kernel, spec: Spec, x: seq<real>)
    requires Lawful(k) && !Proper(spec)
    ensures DirectCube(k, spec, x).Refused? && DirectCube(k, spec, x) != Refused(OutOfBounds)
  {
    ResolvedIsProper(k, spec);
  }

  // ---- the swaption verb ----

  datatype Trade = Trade(expiry: string, tenor: string, strike: real, payer: bool, hasSabr: bool, sabr: SabrParams,
                         normalVol: real)

  datatype Row = Row(expiry: string, tenor: string, strike: real, payer: bool, expiryYears: real, forward: ForwardSwap,
                     vol: real, atmVol: real, price: real, vega: real, delta: real)

  /** A trade as a cell: its strike, and the ATM point beside it. */
  function CellOf(t: Trade): VolCell {
    VolCell(t.expiry, t.tenor, t.hasSabr, t.sabr, t.normalVol, true, t.payer, [t.strike], [], true)
  }

  function CellsOf(trades: seq<Trade>): (r: seq<VolCell>)
    ensures |r| == |trades| && forall i :: 0 <= i < |r| ==> r[i] == CellOf(trades[i])
  {
    seq(|trades|, i requires 0 <= i < |trades| => CellOf(trades[i]))
  }

  /** A trade priced on its own: the vol at its strike and at the forward, and the Bachelier numbers at its strike. */
  function DirectRow(k: Kernel, t: Trade, s: Schedule, f: ForwardSwap): Row {
    var vol := if t.hasSabr then k.sabrVol(f.rate, t.strike, s.expiry, t.sabr) else t.normalVol;
    var atm := if t.hasSabr then k.sabrVol(f.rate, f.rate, s.expiry, t.sabr) else t.normalVol;
    var g := k.greeks(f.rate, t.strike, vol, s.expiry, f.annuity, t.payer);
    Row(t.expiry, t.tenor, t.strike, t.payer, s.expiry, f, vol, atm, g.price, g.vega, g.delta)
  }

  lemma {:induction false} TwoPointsEach(trades: seq<Trade>, n: nat)
    requires n <= |trades|
    ensures Offset(CellsOf(trades), n) == 2 * n
  {
    if n > 0 {
      TwoPointsEach(trades, n - 1);
    }
  }

  /** Positions `2 * ci` and `2 * ci + 1` of the flat output are the trade's own strike and ATM points. */
  lemma TradeAddress(k: Kernel, x: seq<real>, curve: nat, trades: seq<Trade>, scheds: seq<Schedule>, ci: nat)
    requires ci < |trades| == |scheds|
    ensures var cube := CubeAt(k, x, curve, CellsOf(trades), scheds);
            && |cube.points| == 2 * |trades|
            && RowAt(trades[ci], cube, ci) ==
              DirectRow(k, trades[ci], scheds[ci], DirectForward(k, x, curve, scheds[ci]))
  {
    var cells, fs := CellsOf(trades), DirectForwards(k, x, curve, scheds);
    TwoPointsEach(trades, ci);
    TwoPointsEach(trades, |trades|);
    DirectPointsLength(k, cells, scheds, fs, |trades|);
    PointsAtOffset(k, cells, scheds, fs, |trades|, ci, 0);
    PointsAtOffset(k, cells, scheds, fs, |trades|, ci, 1);
    assert Strikes(cells[ci], fs[ci].rate) == [trades[ci].strike, fs[ci].rate];
  }

  /** The verb's reshaping: everything of trade `ci` read at `2 * ci`, the ATM vol one further. */
  function RowAt(t: Trade, cube: Cube, ci: nat): Row
    requires ci < |cube.forwards| && ci < |cube.expiries| && 2 * ci + 1 < |cube.points|
  {
    var p := cube.points[2 * ci];
    Row(t.expiry, t.tenor, p.strike, t.payer, cube.expiries[ci], cube.forwards[ci], p.vol, cube.points[2 * ci + 1].vol,
        p.greeks.price, p.greeks.vega, p.greeks.delta)
  }

  method PriceFresh(k: Kernel, x: seq<real>, spec: Spec) returns (r: Result<Cube>)
    requires Lawful(k)
    ensures r == DirectCube(k, spec, x)
  {
    var session := new VolSession(k, x);
    r := session.PriceVolCube(spec);
  }

  /** A trade's row: its own terms, its forward swap, the vol at its strike and at the forward, and what the Bachelier
      pass makes of the strike. */
  ghost predicate IsRow(k: Kernel, x: seq<real>, curve: nat, t: Trade, s: Schedule, row: Row) {
    && row.expiry == t.expiry && row.tenor == t.tenor && row.strike == t.strike && row.payer == t.payer
    && row.expiryYears == s.expiry && IsForward(k, x, curve, s, row.forward)
    && (t.hasSabr ==> row.vol == k.sabrVol(row.forward.rate, t.strike, s.expiry, t.sabr)
                      && row.atmVol == k.sabrVol(row.forward.rate, row.forward.rate, s.expiry, t.sabr))
    && (!t.hasSabr ==> row.vol == row.atmVol == t.normalVol)
    && var g := k.greeks(row.forward.rate, t.strike, row.vol, s.expiry, row.forward.annuity, t.payer);
      row.price == g.price && row.vega == g.vega && row.delta == g.delta
  }

  ghost predicate AreRows(k: Kernel, x: seq<real>, header: Spec, trades: seq<Trade>, scheds: seq<Schedule>,
                          rows: seq<Row>) {
    && |rows| == |scheds| == |trades| && 0 <= header.curve && forall i :: 0 <= i < |rows| ==>
      k.schedule(header.valueDate, header.currency, header.index, trades[i].expiry, trades[i].tenor) == Some(scheds[i])
      && IsRow(k, x, header.curve, trades[i], scheds[i], rows[i])
  }

  lemma DirectRowsAre(k: Kernel, x: seq<real>, header: Spec, trades: seq<Trade>, rows: seq<Row>)
    requires 0 <= header.curve && Resolved(k, header.(cells := CellsOf(trades))).Ok? && |rows| == |trades|
    requires var scheds := Resolved(k, header.(cells := CellsOf(trades))).value; forall i :: 0 <= i < |rows| ==>
               rows[i] == DirectRow(k, trades[i], scheds[i], DirectForward(k, x, header.curve, scheds[i]))
    ensures AreRows(k, x, header, trades, Resolved(k, header.(cells := CellsOf(trades))).value, rows)
  {
    var spec := header.(cells := CellsOf(trades));
    var scheds := Resolved(k, spec).value;
    SchedulesAre(k, spec);
    forall i | 0 <= i < |rows| ensures IsRow(k, x, header.curve, trades[i], scheds[i], rows[i]) {
      DirectForwardIs(k, x, header.curve, scheds[i]);
    }
  }

  /** The verb refuses an unnamed expiry or tenor, and otherwise reports each trade as if priced alone. */
  method Swaption(k: Kernel, x: seq<real>, header: Spec, trades: seq<Trade>) returns (r: Result<seq<Row>>)
    requires Lawful(k) && header.cells == []
    ensures (exists i :: 0 <= i < |trades| && (trades[i].expiry == "" || trades[i].tenor == "")) ==> r.Refused?
    ensures r.Ok? ==> 0 <= header.curve < k.curves
    ensures r.Ok? ==> var scheds := Resolved(k, header.(cells := CellsOf(trades)));
              scheds.Ok? && |r.value| == |trades| && forall i :: 0 <= i < |trades| ==>
                r.value[i] == DirectRow(k, trades[i], scheds.value[i],
                                        DirectForward(k, x, header.curve, scheds.value[i]))
    ensures r.Refused? ==> (exists i :: 0 <= i < |trades| && (trades[i].expiry == "" || trades[i].tenor == ""))
                           || DirectCube(k, header.(cells := CellsOf(trades)), x).Refused?
    ensures r.Ok? ==> exists scheds :: AreRows(k, x, header, trades, scheds, r.value)
  {
    var cells: seq<VolCell> := [];
    var n := |trades|;
    for i := 0 to n
      invariant cells == CellsOf(trades)[..i]
      invariant forall j :: 0 <= j < i ==> trades[j].expiry != "" && trades[j].tenor != ""
    {
      if trades[i].expiry == "" || trades[i].tenor == "" {
        return Refused(BadCell(i));
      }
      cells := cells + [CellOf(trades[i])];
    }
    assert CellsOf(trades)[..n] == CellsOf(trades);
    var spec := header.(cells := cells);
    var cube := PriceFresh(k, x, spec);
    if cube.Refused? {
      return Refused(cube.why);
    }
    ghost var scheds := Resolved(k, spec).value;
    var rows: seq<Row> := [];
    for i := 0 to n
      invariant |rows| == i
      invariant forall j :: 0 <= j < i ==>
        rows[j] == DirectRow(k, trades[j], scheds[j], DirectForward(k, x, header.curve, scheds[j]))
    {
      TradeAddress(k, x, header.curve, trades, scheds, i);
      rows := rows + [RowAt(trades[i], cube.value, i)];
    }
    DirectRowsAre(k, x, header, trades, rows);
    r := Ok(rows);
  }
}
