/** What the spec compiler produces (api/compile.cpp, compile_spec): curve bases, currency tags, turns, and the
    instrument rows with the curves they refer to, as functions of the ordered curves. */
module SpecModel {
  import opened Wrappers
  import opened KnotLayout
  import opened CurveOrder

  datatype Kind = ParRate | ParSpread | Rate | FxForward | XccyMtmBasis | TurnJump | ZeroCouponRate | Portfolio

  datatype Shape = PlainRow | TurnRow | PortfolioRow

  datatype Turn = Turn(start: real, end: real)

  /** An instrument row of the composer's spec: its quote in decimals, its resolved window, and the references it makes.
      `buildable` stands for everything the instrument builders and the conventions demand of it beyond that. */
  datatype Row = Row(key: string, shape: Shape, hasQuote: bool, addsKnot: bool, kind: Kind, market: real,
                     lower: Option<real>, upper: Option<real>, decay: Option<real>, drift: real,
                     bench: string, fxDen: string, start: real, end: real, turn: Turn,
                     region: Option<string>, knotRegion: Option<KnotRegion>, knots: seq<KnotItem>,
                     components: nat, buildable: bool)

  datatype Curve = Curve(row: CurveRow, currency: string, regions: seq<RegionRow>, rows: seq<Row>)

  datatype CompiledCurve = CompiledCurve(base: int, tag: nat, layout: KnotLayout.Layout, turns: seq<Turn>)

  /** A compiled row: the curves it reads in order, the turn it pins, and its quote. */
  datatype Instrument = Instrument(kind: Kind, roles: seq<nat>, turn: Option<nat>, market: real, lower: real,
                                   upper: real, decay: real)

  datatype Bundle = Bundle(curves: seq<CompiledCurve>, instruments: seq<Instrument>, starts: seq<real>,
                           drifts: seq<real>, codes: seq<string>, nKnots: nat)

  // ---- places in the order ----

  /** The place of the curve with a given id. */
  function Place(cs: seq<Curve>, id: string): (p: Option<nat>)
    ensures p.Some? ==> p.value < |cs| && cs[p.value].row.id == id
    ensures p.None? ==> forall i :: 0 <= i < |cs| ==> cs[i].row.id != id
  {
    PlaceFrom(cs, |cs|, id)
  }

  function PlaceFrom(cs: seq<Curve>, n: nat, id: string): (p: Option<nat>)
    requires n <= |cs|
    ensures p.Some? ==> p.value < n && cs[p.value].row.id == id
    ensures p.None? ==> forall i :: 0 <= i < n ==> cs[i].row.id != id
  {
    if n == 0 then None else if cs[n - 1].row.id == id then Some(n - 1) else PlaceFrom(cs, n - 1, id)
  }

  // ---- currencies ----

  /** Every currency name the compiler numbers, in the order it meets them: the outright curves', then everyone's. */
  function NamesMet(cs: seq<Curve>, outrightOnly: bool, n: nat): seq<string>
    requires n <= |cs|
  {
    if n == 0 then []
    else if outrightOnly && cs[n - 1].row.spread then NamesMet(cs, outrightOnly, n - 1)
    else NamesMet(cs, outrightOnly, n - 1) + [cs[n - 1].currency]
  }

  /** The names met for the first time, in order. */
  function FirstUse(known: seq<string>, names: seq<string>, n: nat): seq<string>
    requires n <= |names|
  {
    if n == 0 then known else
      var before := FirstUse(known, names, n - 1);
      if names[n - 1] in before then before else before + [names[n - 1]]
  }

  function Codes(cs: seq<Curve>): seq<string> {
    var outright, all := NamesMet(cs, true, |cs|), NamesMet(cs, false, |cs|);
    FirstUse(FirstUse([], outright, |outright|), all, |all|)
  }

  // ---- discount roots and bases ----

  /** The first outright curve, of any currency or of one. */
  function RootFrom(cs: seq<Curve>, currency: Option<string>, i: nat): (r: Option<nat>)
    requires i <= |cs|
    ensures r.Some? ==>
      i <= r.value < |cs| && !cs[r.value].row.spread && (currency.Some? ==> cs[r.value].currency == currency.value)
    decreases |cs| - i
  {
    if i == |cs| then None
    else if !cs[i].row.spread && (currency.None? || cs[i].currency == currency.value) then Some(i)
    else RootFrom(cs, currency, i + 1)
  }

  /** The curve's discount curve: its currency's first outright curve, or the spec's. */
  function Disc(cs: seq<Curve>, i: nat): nat
    requires i < |cs| && RootFrom(cs, None, 0).Some?
  {
    var own := RootFrom(cs, Some(cs[i].currency), 0);
    if own.Some? then own.value else RootFrom(cs, None, 0).value
  }

  function BaseOf(cs: seq<Curve>, i: nat): Option<nat>
    requires i < |cs|
  {
    if HasBase(cs[i].row) then Place(cs, cs[i].row.base) else None
  }

  /** What a basis row without a named benchmark is quoted against. */
  function SpreadBase(cs: seq<Curve>, i: nat): nat
    requires i < |cs| && RootFrom(cs, None, 0).Some?
  {
    if BaseOf(cs, i).Some? then BaseOf(cs, i).value else Disc(cs, i)
  }

  /** A basis row's benchmark curve: the named one, which must exist and be another curve. */
  function Bench(cs: seq<Curve>, i: nat, row: Row): Option<nat>
    requires i < |cs| && RootFrom(cs, None, 0).Some?
  {
    if row.bench == "" then Some(SpreadBase(cs, i))
    else if Place(cs, row.bench) == Some(i) then None
    else Place(cs, row.bench)
  }

  /** The other curve of an FX row. */
  function FxOther(cs: seq<Curve>, i: nat, row: Row): Option<nat>
    requires i < |cs|
  {
    if row.fxDen == "" || Place(cs, row.fxDen) == Some(i) then None else Place(cs, row.fxDen)
  }

  // ---- turns ----

  /** The turns of the first `n` rows. */
  function TurnsIn(rows: seq<Row>, n: nat): seq<Turn>
    requires n <= |rows|
  {
    if n == 0 then []
    else if rows[n - 1].shape.TurnRow? then TurnsIn(rows, n - 1) + [rows[n - 1].turn]
    else TurnsIn(rows, n - 1)
  }

  /** The turn index filed under a key: that of the last turn row with it. */
  function TurnFiled(rows: seq<Row>, n: nat, key: string): (t: Option<nat>)
    requires n <= |rows|
    ensures t.Some? ==> t.value < |TurnsIn(rows, n)|
  {
    if n == 0 then None
    else if rows[n - 1].shape.TurnRow? && rows[n - 1].key == key then Some(|TurnsIn(rows, n - 1)|)
    else TurnFiled(rows, n - 1, key)
  }

  /** The window filed under a key: the last turn's with it, otherwise the last row's. */
  function WindowFiled(rows: seq<Row>, n: nat, key: string): (real, real)
    requires n <= |rows|
  {
    if TurnFiled(rows, n, key).Some? then
      var t := TurnsIn(rows, n)[TurnFiled(rows, n, key).value];
      (t.start, t.end)
    else LastWindow(rows, n, key)
  }

  function LastWindow(rows: seq<Row>, n: nat, key: string): (real, real)
    requires n <= |rows|
  {
    if n == 0 then (0.0, 0.0)
    else if rows[n - 1].key == key then (rows[n - 1].start, rows[n - 1].end)
    else LastWindow(rows, n - 1, key)
  }

  /** The knots of the first `n` rows: a portfolio's own, and one at the end of a row that adds one. */
  function KnotsIn(rows: seq<Row>, n: nat): seq<KnotItem>
    requires n <= |rows|
  {
    if n == 0 then []
    else if rows[n - 1].shape.PortfolioRow? then KnotsIn(rows, n - 1) + rows[n - 1].knots
    else if rows[n - 1].addsKnot then
      KnotsIn(rows, n - 1) + [KnotItem(WindowFiled(rows, |rows|, rows[n - 1].key).1, rows[n - 1].region,
                                       rows[n - 1].knotRegion)]
    else KnotsIn(rows, n - 1)
  }

  // ---- one row ----

  /** The roles of a row that quotes: none when a reference or a window is refused. */
  function Roles(cs: seq<Curve>, i: nat, row: Row): Option<seq<nat>>
    requires i < |cs| && RootFrom(cs, None, 0).Some?
  {
    var disc := Disc(cs, i);
    if row.shape.PortfolioRow? then if row.components == 0 then None else Some([i, disc])
    else match row.kind
      case Rate =>
        var w := WindowFiled(cs[i].rows, |cs[i].rows|, row.key);
        if w.1 <= w.0 then None else Some([i])
      case ParSpread => if Bench(cs, i, row).None? then None else Some([i, Bench(cs, i, row).value, disc])
      case FxForward => if FxOther(cs, i, row).None? then None else Some([i, FxOther(cs, i, row).value])
      case XccyMtmBasis =>
        if FxOther(cs, i, row).None? || Bench(cs, i, row).None? then None
        else Some([i, Bench(cs, i, row).value, FxOther(cs, i, row).value])
      case TurnJump => if TurnFiled(cs[i].rows, |cs[i].rows|, row.key).None? then None else Some([i])
      case _ => Some([i, disc])
  }

  /** A wire band (both bounds given): a pin, a band around its target, or refused. */
  function BandTarget(row: Row): Option<(real, real, real)> {
    if row.lower.None? || row.upper.None? then Some((0.0, 0.0, 1.0)) else
      var lower, upper := row.lower.value, row.upper.value;
      var decay := if row.decay.Some? then row.decay.value else 1.0;
      if upper < lower then None
      else if upper == lower then if row.market != upper then None else Some((0.0, 0.0, 1.0))
      else if row.market < lower || row.market > upper || !(0.0 <= decay <= 1.0) then None
      else Some((lower, upper, decay))
  }

  function Built(cs: seq<Curve>, i: nat, row: Row): Option<Instrument>
    requires i < |cs| && RootFrom(cs, None, 0).Some?
  {
    var roles, band := Roles(cs, i, row), BandTarget(row);
    if !row.buildable || roles.None? || band.None? then None else
      var kind := if row.shape.PortfolioRow? then Portfolio else row.kind;
      var turn := if kind.TurnJump? then TurnFiled(cs[i].rows, |cs[i].rows|, row.key) else None;
      Some(Instrument(kind, roles.value, turn, row.market, band.value.0, band.value.1, band.value.2))
  }

  predicate Quotes(row: Row) {
    row.shape.PortfolioRow? || row.hasQuote
  }

  /** A quoting row with the place of its curve. */
  datatype Placed = Placed(curve: nat, row: Row)

  function QuotedRows(i: nat, rows: seq<Row>, n: nat): seq<Placed>
    requires n <= |rows|
  {
    if n == 0 then []
    else if Quotes(rows[n - 1]) then QuotedRows(i, rows, n - 1) + [Placed(i, rows[n - 1])]
    else QuotedRows(i, rows, n - 1)
  }

  /** The quoting rows of the first `m` curves, in residual order. */
  function AllQuoted(cs: seq<Curve>, m: nat): seq<Placed>
    requires m <= |cs|
  {
    if m == 0 then [] else AllQuoted(cs, m - 1) + QuotedRows(m - 1, cs[m - 1].rows, |cs[m - 1].rows|)
  }

  // ---- one curve ----

  function Laid(c: Curve): KnotLayout.Result {
    LayoutOf(c.regions, KnotsIn(c.rows, |c.rows|))
  }

  predicate KnotsFuture(items: seq<KnotItem>) {
    items != [] && forall k :: k in items ==> k.t > 0.0
  }

  function Turns(c: Curve): seq<Turn> {
    TurnsIn(c.rows, |c.rows|)
  }

  function BlockSize(c: CompiledCurve): nat {
    |Knots(c.layout)| + |c.turns|
  }

  function TotalKnots(curves: seq<CompiledCurve>, n: nat): nat
    requires n <= |curves|
  {
    if n == 0 then 0 else TotalKnots(curves, n - 1) + BlockSize(curves[n - 1])
  }
}
