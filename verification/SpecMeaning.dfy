/** What a compiled spec holds, in the spec's own ids, currencies and rows: which curve stands in which place of each
    instrument, in what order the instruments come, and what each curve was given. */
module SpecMeaning {
  import opened Wrappers
  import CurveOrder
  import KnotLayout
  import opened SpecCompiler
  import opened SpecModel

  // ---- the curves a row names ----

  ghost predicate Outright(cs: seq<Curve>, i: nat)
    requires i < |cs|
  {
    !cs[i].row.spread
  }

  ghost predicate OutrightIn(cs: seq<Curve>, i: nat, currency: string)
    requires i < |cs|
  {
    Outright(cs, i) && cs[i].currency == currency
  }

  ghost predicate HasOutright(cs: seq<Curve>, currency: string) {
    exists j :: 0 <= j < |cs| && OutrightIn(cs, j, currency)
  }

  /** Curve d discounts curve i: the first outright curve of its currency, or of the whole spec when its currency has
      none. */
  ghost predicate Discounts(cs: seq<Curve>, i: nat, d: nat)
    requires i < |cs|
  {
    && d < |cs| && Outright(cs, d)
    && if HasOutright(cs, cs[i].currency)
      then cs[d].currency == cs[i].currency && forall j :: 0 <= j < d ==> !OutrightIn(cs, j, cs[i].currency)
      else forall j :: 0 <= j < d ==> !Outright(cs, j)
  }

  ghost predicate HasId(cs: seq<Curve>, p: nat, id: string) {
    p < |cs| && cs[p].row.id == id
  }

  /** Curve b is the benchmark of a row of curve i: the one it names, which is another curve; when it names none, the
      curve's base, or its discount curve when it has no base. */
  ghost predicate Benchmarks(cs: seq<Curve>, i: nat, row: Row, b: nat)
    requires i < |cs|
  {
    if row.bench != "" then HasId(cs, b, row.bench) && b != i
    else if cs[i].row.spread && cs[i].row.base != "" then HasId(cs, b, cs[i].row.base)
    else Discounts(cs, i, b)
  }

  /** Curve p is the other curve of an FX row of curve i. */
  ghost predicate IsFxOther(cs: seq<Curve>, i: nat, row: Row, p: nat) {
    row.fxDen != "" && HasId(cs, p, row.fxDen) && p != i
  }

  /** The places of a compiled row's curves, kind by kind; the first is always the row's own. */
  ghost predicate StandIn(cs: seq<Curve>, i: nat, row: Row, roles: seq<nat>)
    requires i < |cs|
  {
    if row.shape.PortfolioRow? then |roles| == 2 && roles[0] == i && Discounts(cs, i, roles[1])
    else match row.kind
      case Rate => roles == [i]
      case TurnJump => roles == [i]
      case ParSpread =>
        |roles| == 3 && roles[0] == i && Benchmarks(cs, i, row, roles[1]) && Discounts(cs, i, roles[2])
      case FxForward => |roles| == 2 && roles[0] == i && IsFxOther(cs, i, row, roles[1])
      case XccyMtmBasis =>
        |roles| == 3 && roles[0] == i && Benchmarks(cs, i, row, roles[1]) && IsFxOther(cs, i, row, roles[2])
      case _ => |roles| == 2 && roles[0] == i && Discounts(cs, i, roles[1])
  }

  lemma {:induction false} DiscDiscounts(cs: seq<Curve>, i: nat)
    requires i < |cs| && RootFrom(cs, None, 0).Some?
    ensures Discounts(cs, i, Disc(cs, i))
  {
    var own, any := RootFrom(cs, Some(cs[i].currency), 0), RootFrom(cs, None, 0);
    RootIsFirst(cs, Some(cs[i].currency), 0);
    RootIsFirst(cs, None, 0);
    if own.Some? {
      assert OutrightIn(cs, own.value, cs[i].currency);
    }
  }

  lemma {:induction false} BenchBenchmarks(cs: seq<Curve>, i: nat, row: Row)
    requires InOrder(cs) && i < |cs| && RootFrom(cs, None, 0).Some? && Bench(cs, i, row).Some?
    ensures Benchmarks(cs, i, row, Bench(cs, i, row).value)
  {
    DiscDiscounts(cs, i);
  }

  /** With distinct ids a row can stand in only one way. */
  lemma {:induction false} OneDiscount(cs: seq<Curve>, i: nat, d: nat, e: nat)
    requires i < |cs| && Discounts(cs, i, d) && Discounts(cs, i, e)
    ensures d == e
  {
    if d < e {
      assert OutrightIn(cs, d, cs[d].currency);
    } else if e < d {
      assert OutrightIn(cs, e, cs[e].currency);
    }
  }

  lemma {:induction false} OneStanding(cs: seq<Curve>, i: nat, row: Row, p: seq<nat>, q: seq<nat>)
    requires InOrder(cs) && i < |cs| && StandIn(cs, i, row, p) && StandIn(cs, i, row, q)
    ensures p == q
  {
    forall d, e | Discounts(cs, i, d) && Discounts(cs, i, e) ensures d == e {
      OneDiscount(cs, i, d, e);
    }
  }

  // ---- what a key stands for on a curve ----

  ghost predicate LastWith(rows: seq<Row>, key: string, j: nat) {
    j < |rows| && rows[j].key == key && forall l :: j < l < |rows| ==> rows[l].key != key
  }

  ghost predicate LastTurnWith(rows: seq<Row>, key: string, j: nat) {
    && j < |rows| && rows[j].shape.TurnRow? && rows[j].key == key
    && forall l :: j < l < |rows| && rows[l].shape.TurnRow? ==> rows[l].key != key
  }

  ghost predicate HasTurn(rows: seq<Row>, key: string) {
    exists j :: LastTurnWith(rows, key, j)
  }

  /** The window a row of this key is read with: that of the last turn row with the key, or, when no turn row has it, of
      the last row with it. */
  ghost predicate IsWindow(rows: seq<Row>, key: string, start: real, end: real) {
    if HasTurn(rows, key) then exists j: nat :: LastTurnWith(rows, key, j) && rows[j].turn == Turn(start, end)
    else exists j: nat :: LastWith(rows, key, j) && rows[j].start == start && rows[j].end == end
  }

  lemma {:induction false} TurnFiledIs(rows: seq<Row>, n: nat, key: string) returns (j: nat)
    requires n <= |rows|
    ensures TurnFiled(rows, n, key).None? ==> forall l :: 0 <= l < n && rows[l].shape.TurnRow? ==> rows[l].key != key
    ensures TurnFiled(rows, n, key).Some? ==>
      && j < n && LastTurnWith(rows[..n], key, j) && TurnFiled(rows, n, key).value == |TurnsIn(rows, j)|
      && TurnsIn(rows, n)[TurnFiled(rows, n, key).value] == rows[j].turn
  {
    j := 0;
    if n > 0 {
      j := n - 1;
      if !(rows[n - 1].shape.TurnRow? && rows[n - 1].key == key) {
        j := TurnFiledIs(rows, n - 1, key);
        assert forall l :: 0 <= l < n - 1 ==> rows[..n][l] == rows[..n - 1][l];
      }
    }
  }

  lemma {:induction false} LastWindowIs(rows: seq<Row>, n: nat, key: string) returns (j: nat)
    requires n <= |rows| && exists i :: 0 <= i < n && rows[i].key == key
    ensures LastWith(rows[..n], key, j) && LastWindow(rows, n, key) == (rows[j].start, rows[j].end)
  {
    j := n - 1;
    if rows[n - 1].key != key {
      j := LastWindowIs(rows, n - 1, key);
      assert forall l :: 0 <= l < n - 1 ==> rows[..n][l] == rows[..n - 1][l];
    }
  }

  /** A key files one window. */
  lemma {:induction false} WindowIs(rows: seq<Row>, row: Row, start: real, end: real)
    requires row in rows
    ensures IsWindow(rows, row.key, start, end) <==> WindowFiled(rows, |rows|, row.key) == (start, end)
    ensures TurnFiled(rows, |rows|, row.key).Some? <==> HasTurn(rows, row.key)
  {
    var i :| 0 <= i < |rows| && rows[i] == row;
    assert rows[..|rows|] == rows;
    var t := TurnFiledIs(rows, |rows|, row.key);
    var j := LastWindowIs(rows, |rows|, row.key);
    forall a, b | LastTurnWith(rows, row.key, a) && LastTurnWith(rows, row.key, b) ensures a == b {
    }
    forall a, b | LastWith(rows, row.key, a) && LastWith(rows, row.key, b) ensures a == b {
    }
  }

  // ---- a compiled row ----

  ghost predicate HasBand(row: Row) {
    row.lower.Some? && row.upper.Some? && row.lower != row.upper
  }

  ghost function DecayOf(row: Row): real {
    if row.decay.Some? then row.decay.value else 1.0
  }

  /** The quote of a compiled row: its own target; its band and decay where it gives two different bounds, and otherwise
      no band at all. */
  ghost predicate QuotedAs(row: Row, ins: Instrument) {
    && ins.market == row.market
    && if HasBand(row) then ins.lower == row.lower.value && ins.upper == row.upper.value && ins.decay == DecayOf(row)
      else ins.lower == 0.0 && ins.upper == 0.0 && ins.decay == 1.0
  }

  /** A band is refused when it is inverted, does not contain the target, or has a decay outside [0, 1]; a pin, when the
      target is not on it. */
  ghost predicate BandAccepted(row: Row) {
    row.lower.Some? && row.upper.Some? ==>
      && row.lower.value <= row.market <= row.upper.value
      && (row.lower.value < row.upper.value ==> 0.0 <= DecayOf(row) <= 1.0)
  }

  /** The row of curve i is compiled to `ins`: its kind, the curves in their places, the turn it pins and its quote. */
  ghost predicate CompiledTo(cs: seq<Curve>, i: nat, row: Row, ins: Instrument)
    requires i < |cs|
  {
    && ins.kind == (if row.shape.PortfolioRow? then Portfolio else row.kind)
    && StandIn(cs, i, row, ins.roles) && QuotedAs(row, ins)
    && (ins.turn.Some? <==> ins.kind.TurnJump?)
  }

  /** What a row needs to be compiled: what its builder demands, an acceptable band, and the references and the window
      its kind reads. */
  ghost predicate Compilable(cs: seq<Curve>, i: nat, row: Row)
    requires i < |cs|
  {
    row.buildable && BandAccepted(row) &&
    if row.shape.PortfolioRow? then row.components > 0
    else match row.kind
      case Rate => exists start, end :: IsWindow(cs[i].rows, row.key, start, end) && start < end
      case TurnJump => HasTurn(cs[i].rows, row.key)
      case ParSpread => Names(cs, i, row)
      case FxForward => exists p :: IsFxOther(cs, i, row, p)
      case XccyMtmBasis => Names(cs, i, row) && exists p :: IsFxOther(cs, i, row, p)
      case _ => true
  }

  ghost predicate Names(cs: seq<Curve>, i: nat, row: Row)
    requires i < |cs|
  {
    exists b :: Benchmarks(cs, i, row, b)
  }

  /** A built row stands as it should. */
  lemma {:induction false} BuiltIsCompiled(cs: seq<Curve>, i: nat, row: Row)
    requires InOrder(cs) && i < |cs| && RootFrom(cs, None, 0).Some? && Built(cs, i, row).Some?
    ensures CompiledTo(cs, i, row, Built(cs, i, row).value)
  {
    DiscDiscounts(cs, i);
    if Bench(cs, i, row).Some? {
      BenchBenchmarks(cs, i, row);
    }
  }

  lemma {:induction false} BandAcceptedIff(row: Row)
    ensures BandTarget(row).Some? <==> BandAccepted(row)
  {
  }

  lemma {:induction false} BenchIff(cs: seq<Curve>, i: nat, row: Row)
    requires InOrder(cs) && i < |cs| && RootFrom(cs, None, 0).Some?
    ensures Bench(cs, i, row).Some? <==> Names(cs, i, row)
    ensures FxOther(cs, i, row).Some? <==> exists p :: IsFxOther(cs, i, row, p)
  {
    if Bench(cs, i, row).Some? {
      BenchBenchmarks(cs, i, row);
    }
    if FxOther(cs, i, row).Some? {
      assert IsFxOther(cs, i, row, FxOther(cs, i, row).value);
    }
  }

  /** A row builds exactly when it is compilable. */
  lemma {:induction false} BuildsIff(cs: seq<Curve>, i: nat, row: Row)
    requires InOrder(cs) && i < |cs| && RootFrom(cs, None, 0).Some?
    requires row in cs[i].rows
    ensures Built(cs, i, row).Some? <==> Compilable(cs, i, row)
  {
    BandAcceptedIff(row);
    BenchIff(cs, i, row);
    RateWindowIff(cs[i].rows, row);
  }

  lemma {:induction false} RateWindowIff(rows: seq<Row>, row: Row)
    requires row in rows
    ensures TurnFiled(rows, |rows|, row.key).Some? <==> HasTurn(rows, row.key)
    ensures var w := WindowFiled(rows, |rows|, row.key);
            w.0 < w.1 <==> exists start, end :: IsWindow(rows, row.key, start, end) && start < end
  {
    var w := WindowFiled(rows, |rows|, row.key);
    WindowIs(rows, row, w.0, w.1);
    forall start, end | IsWindow(rows, row.key, start, end) ensures w == (start, end) {
      WindowIs(rows, row, start, end);
    }
  }

  // ---- the order of the instruments ----

  /** A row of a spec by its place: its curve, and its place on it. */
  datatype Spot = Spot(curve: nat, row: nat)

  ghost predicate IsSpot(cs: seq<Curve>, p: Spot) {
    p.curve < |cs| && p.row < |cs[p.curve].rows|
  }

  ghost predicate Before(p: Spot, q: Spot) {
    p.curve < q.curve || (p.curve == q.curve && p.row < q.row)
  }

  ghost predicate QuotingSpot(cs: seq<Curve>, p: Spot) {
    IsSpot(cs, p) && (cs[p.curve].rows[p.row].shape.PortfolioRow? || cs[p.curve].rows[p.row].hasQuote)
  }

  /** `spots` lists every quoting row of the first `m` curves, and of the next one's first `n`, once and in order. */
  ghost predicate ListsQuoting(cs: seq<Curve>, m: nat, n: nat, spots: seq<Spot>) {
    && (forall r, t :: 0 <= r < t < |spots| ==> Before(spots[r], spots[t]))
    && (forall r :: 0 <= r < |spots| ==> QuotingSpot(cs, spots[r]) && Before(spots[r], Spot(m, n)))
    && (forall p :: QuotingSpot(cs, p) && Before(p, Spot(m, n)) ==> p in spots)
  }

  /** `spots`, and after them the quoting rows among the first `n` of curve i. */
  ghost function SpotsFrom(cs: seq<Curve>, i: nat, n: nat, spots: seq<Spot>): seq<Spot>
    requires i < |cs| && n <= |cs[i].rows|
  {
    if n == 0 then spots
    else if QuotingSpot(cs, Spot(i, n - 1)) then SpotsFrom(cs, i, n - 1, spots) + [Spot(i, n - 1)]
    else SpotsFrom(cs, i, n - 1, spots)
  }

  /** The quoting rows of the first `m` curves. */
  ghost function SpotsTo(cs: seq<Curve>, m: nat): seq<Spot>
    requires m <= |cs|
  {
    if m == 0 then [] else SpotsFrom(cs, m - 1, |cs[m - 1].rows|, SpotsTo(cs, m - 1))
  }

  lemma NextRow(cs: seq<Curve>, here: Spot, spots: seq<Spot>)
    requires IsSpot(cs, here) && ListsQuoting(cs, here.curve, here.row, spots)
    ensures QuotingSpot(cs, here) ==> ListsQuoting(cs, here.curve, here.row + 1, spots + [here])
    ensures !QuotingSpot(cs, here) ==> ListsQuoting(cs, here.curve, here.row + 1, spots)
  {
    forall p | QuotingSpot(cs, p) && Before(p, Spot(here.curve, here.row + 1)) && p != here ensures p in spots {
      assert Before(p, here);
    }
  }

  lemma {:induction false} SpotsListed(cs: seq<Curve>, i: nat, n: nat, spots: seq<Spot>)
    requires i < |cs| && n <= |cs[i].rows| && ListsQuoting(cs, i, 0, spots)
    ensures ListsQuoting(cs, i, n, SpotsFrom(cs, i, n, spots))
    decreases n
  {
    if n > 0 {
      SpotsListed(cs, i, n - 1, spots);
      NextRow(cs, Spot(i, n - 1), SpotsFrom(cs, i, n - 1, spots));
    }
  }

  lemma NextCurve(cs: seq<Curve>, m: nat, spots: seq<Spot>)
    requires 0 < m <= |cs| && ListsQuoting(cs, m - 1, |cs[m - 1].rows|, spots)
    ensures ListsQuoting(cs, m, 0, spots)
  {
    forall p | QuotingSpot(cs, p) && Before(p, Spot(m, 0)) ensures p in spots {
      assert Before(p, Spot(m - 1, |cs[m - 1].rows|));
    }
  }

  lemma {:induction false} AllListed(cs: seq<Curve>, m: nat)
    requires m <= |cs|
    ensures ListsQuoting(cs, m, 0, SpotsTo(cs, m))
    decreases m
  {
    if m > 0 {
      AllListed(cs, m - 1);
      SpotsListed(cs, m - 1, |cs[m - 1].rows|, SpotsTo(cs, m - 1));
      NextCurve(cs, m, SpotsTo(cs, m));
    }
  }

  ghost predicate PlacedAt(cs: seq<Curve>, p: Spot, q: Placed) {
    IsSpot(cs, p) && q == Placed(p.curve, cs[p.curve].rows[p.row])
  }

  ghost predicate Placing(cs: seq<Curve>, spots: seq<Spot>, quoted: seq<Placed>) {
    |quoted| == |spots| && forall r :: 0 <= r < |spots| ==> PlacedAt(cs, spots[r], quoted[r])
  }

  lemma NextPlacing(cs: seq<Curve>, spots: seq<Spot>, quoted: seq<Placed>, p: Spot, q: Placed)
    requires Placing(cs, spots, quoted) && PlacedAt(cs, p, q)
    ensures Placing(cs, spots + [p], quoted + [q])
  {
  }

  lemma {:induction false} RowsPlaced(cs: seq<Curve>, i: nat, n: nat, spots: seq<Spot>, quoted: seq<Placed>)
    requires i < |cs| && n <= |cs[i].rows| && Placing(cs, spots, quoted)
    ensures Placing(cs, SpotsFrom(cs, i, n, spots), quoted + QuotedRows(i, cs[i].rows, n))
    decreases n
  {
    if n == 0 {
      assert quoted + QuotedRows(i, cs[i].rows, 0) == quoted;
    } else {
      var rest := QuotedRows(i, cs[i].rows, n - 1);
      RowsPlaced(cs, i, n - 1, spots, quoted);
      if QuotingSpot(cs, Spot(i, n - 1)) {
        NextPlacing(cs, SpotsFrom(cs, i, n - 1, spots), quoted + rest, Spot(i, n - 1), Placed(i, cs[i].rows[n - 1]));
        assert quoted + QuotedRows(i, cs[i].rows, n) == quoted + rest + [Placed(i, cs[i].rows[n - 1])];
      }
    }
  }

  lemma {:induction false} AllPlaced(cs: seq<Curve>, m: nat)
    requires m <= |cs|
    ensures Placing(cs, SpotsTo(cs, m), AllQuoted(cs, m))
    decreases m
  {
    if m > 0 {
      AllPlaced(cs, m - 1);
      RowsPlaced(cs, m - 1, |cs[m - 1].rows|, SpotsTo(cs, m - 1), AllQuoted(cs, m - 1));
    }
  }

  ghost function RowAt(cs: seq<Curve>, p: Spot): Row
    requires IsSpot(cs, p)
  {
    cs[p.curve].rows[p.row]
  }

  /** The three parallel lists: one entry each for every quoting row, curve by curve and row by row. */
  ghost predicate InstrumentsGiven(cs: seq<Curve>, b: Bundle, spots: seq<Spot>) {
    && ListsQuoting(cs, |cs|, 0, spots) && |b.instruments| == |b.starts| == |b.drifts| == |spots|
    && forall r :: 0 <= r < |spots| ==>
      && IsSpot(cs, spots[r]) && CompiledTo(cs, spots[r].curve, RowAt(cs, spots[r]), b.instruments[r])
      && b.starts[r] == RowAt(cs, spots[r]).market && b.drifts[r] == RowAt(cs, spots[r]).drift
  }

  /** Every compiled instrument stands for its own row, with the curves the row means in their places. */
  lemma {:induction false} InstrumentsMean(cs: seq<Curve>, b: Bundle) returns (spots: seq<Spot>)
    requires InOrder(cs) && IsBundle(cs, b)
    ensures InstrumentsGiven(cs, b, spots)
  {
    spots := SpotsTo(cs, |cs|);
    AllListed(cs, |cs|);
    AllPlaced(cs, |cs|);
    var quoted := AllQuoted(cs, |cs|);
    forall r | 0 <= r < |spots|
      ensures CompiledTo(cs, spots[r].curve, RowAt(cs, spots[r]), b.instruments[r])
      ensures b.starts[r] == RowAt(cs, spots[r]).market && b.drifts[r] == RowAt(cs, spots[r]).drift
    {
      assert PlacedAt(cs, spots[r], quoted[r]);
      assert IsRow(cs, quoted[r], b.instruments[r], b.starts[r], b.drifts[r]);
      BuiltIsCompiled(cs, spots[r].curve, RowAt(cs, spots[r]));
    }
  }

  // ---- when a spec compiles ----

  ghost predicate AllCompilable(cs: seq<Curve>) {
    forall p :: QuotingSpot(cs, p) ==> Compilable(cs, p.curve, RowAt(cs, p))
  }

  lemma {:induction false} AllBuildIff(cs: seq<Curve>)
    requires InOrder(cs) && RootFrom(cs, None, 0).Some?
    ensures AllBuild(cs, AllQuoted(cs, |cs|)) <==> AllCompilable(cs)
    ensures AllQuoted(cs, |cs|) != [] <==> exists p :: QuotingSpot(cs, p)
  {
    var spots := SpotsTo(cs, |cs|);
    AllListed(cs, |cs|);
    AllPlaced(cs, |cs|);
    forall p | QuotingSpot(cs, p) ensures p in spots {
      assert Before(p, Spot(|cs|, 0));
    }
    if spots != [] {
      assert QuotingSpot(cs, spots[0]);
    }
    forall r | 0 <= r < |spots|
      ensures Built(cs, spots[r].curve, RowAt(cs, spots[r])).Some? <==>
              Compilable(cs, spots[r].curve, RowAt(cs, spots[r]))
    {
      BuildsIff(cs, spots[r].curve, RowAt(cs, spots[r]));
    }
    BuildAll(cs, spots);
  }

  /** An ordered spec passes exactly when some curve is outright, every curve lays out, some row quotes, and every
      quoting row is compilable. */
  lemma {:induction false} CompilesIff(cs: seq<Curve>)
    requires InOrder(cs)
    ensures Compiles(cs) <==>
            && (exists j :: 0 <= j < |cs| && Outright(cs, j)) && AllLay(cs)
            && (exists p :: QuotingSpot(cs, p)) && AllCompilable(cs)
  {
    RootIsFirst(cs, None, 0);
    if RootFrom(cs, None, 0).Some? {
      assert Outright(cs, RootFrom(cs, None, 0).value);
      AllBuildIff(cs);
    }
  }

  lemma {:induction false} BuildAll(cs: seq<Curve>, spots: seq<Spot>)
    requires RootFrom(cs, None, 0).Some? && Placing(cs, spots, AllQuoted(cs, |cs|))
    requires forall r :: 0 <= r < |spots| ==> QuotingSpot(cs, spots[r])
    requires forall p :: QuotingSpot(cs, p) ==> p in spots
    requires forall r :: 0 <= r < |spots| ==>
      (Built(cs, spots[r].curve, RowAt(cs, spots[r])).Some? <==>
       Compilable(cs, spots[r].curve, RowAt(cs, spots[r])))
    ensures AllBuild(cs, AllQuoted(cs, |cs|)) <==> AllCompilable(cs)
  {
    var quoted := AllQuoted(cs, |cs|);
    if AllBuild(cs, quoted) {
      forall p | QuotingSpot(cs, p) ensures Compilable(cs, p.curve, RowAt(cs, p)) {
        var r :| 0 <= r < |spots| && spots[r] == p;
        assert PlacedAt(cs, spots[r], quoted[r]);
        assert Built(cs, quoted[r].curve, quoted[r].row).Some?;
      }
    }
    if AllCompilable(cs) {
      forall r | 0 <= r < |quoted| ensures Built(cs, quoted[r].curve, quoted[r].row).Some? {
        assert PlacedAt(cs, spots[r], quoted[r]);
        assert QuotingSpot(cs, spots[r]);
      }
    }
  }

  // ---- what each curve was given ----

  /** A row gives the layout this knot: a portfolio its own, another row that adds one its window's end, with the region
      and the side it asks for. */
  ghost predicate GivesKnot(rows: seq<Row>, row: Row, k: KnotLayout.KnotItem) {
    if row.shape.PortfolioRow? then k in row.knots
    else row.addsKnot && k.region == row.region && k.knotRegion == row.knotRegion
         && exists start :: IsWindow(rows, row.key, start, k.t)
  }

  ghost predicate SomeGives(rows: seq<Row>, n: nat, k: KnotLayout.KnotItem)
    requires n <= |rows|
  {
    exists j :: 0 <= j < n && GivesKnot(rows, rows[j], k)
  }

  /** `items` are the knots a curve's rows give. */
  ghost predicate GivenKnots(rows: seq<Row>, items: seq<KnotLayout.KnotItem>) {
    forall k :: k in items <==> SomeGives(rows, |rows|, k)
  }

  /** `at` lists the curve's turn rows in order. */
  ghost predicate ListsTurns(rows: seq<Row>, n: nat, at: seq<nat>, turns: seq<Turn>)
    requires n <= |rows|
  {
    && |turns| == |at| && (forall r, t :: 0 <= r < t < |at| ==> at[r] < at[t])
    && (forall r :: 0 <= r < |at| ==> at[r] < n && rows[at[r]].shape.TurnRow? && turns[r] == rows[at[r]].turn)
    && (forall j :: 0 <= j < n && rows[j].shape.TurnRow? ==> j in at)
  }

  /** What a compiled curve was given: the base it names, its turn rows' turns, and the layout of its rows' knots. */
  ghost predicate CurveGiven(cs: seq<Curve>, i: nat, c: CompiledCurve, at: seq<nat>, items: seq<KnotLayout.KnotItem>)
    requires i < |cs|
  {
    && (if cs[i].row.spread && cs[i].row.base != "" then 0 <= c.base < i && cs[c.base].row.id == cs[i].row.base
        else c.base == -1)
    && ListsTurns(cs[i].rows, |cs[i].rows|, at, c.turns)
    && GivenKnots(cs[i].rows, items) && KnotLayout.LayoutOf(cs[i].regions, items) == KnotLayout.Ok(c.layout)
  }

  lemma {:induction false} TurnsListed(rows: seq<Row>, n: nat) returns (at: seq<nat>)
    requires n <= |rows|
    ensures ListsTurns(rows, n, at, TurnsIn(rows, n))
    decreases n
  {
    if n == 0 {
      at := [];
    } else {
      var before := TurnsListed(rows, n - 1);
      TurnsStep(rows, n, before, TurnsIn(rows, n - 1));
      at := if rows[n - 1].shape.TurnRow? then before + [n - 1] else before;
    }
  }

  lemma TurnsStep(rows: seq<Row>, n: nat, at: seq<nat>, turns: seq<Turn>)
    requires 0 < n <= |rows| && ListsTurns(rows, n - 1, at, turns)
    ensures rows[n - 1].shape.TurnRow? ==> ListsTurns(rows, n, at + [n - 1], turns + [rows[n - 1].turn])
    ensures !rows[n - 1].shape.TurnRow? ==> ListsTurns(rows, n, at, turns)
  {
    if rows[n - 1].shape.TurnRow? {
      OneMoreTurn(rows, n, at, turns);
    }
  }

  lemma OneMoreTurn(rows: seq<Row>, n: nat, at: seq<nat>, turns: seq<Turn>)
    requires 0 < n <= |rows| && ListsTurns(rows, n - 1, at, turns) && rows[n - 1].shape.TurnRow?
    ensures ListsTurns(rows, n, at + [n - 1], turns + [rows[n - 1].turn])
  {
    forall j | 0 <= j < n && rows[j].shape.TurnRow? ensures j in at + [n - 1] {
      if j < n - 1 {
        assert j in at;
      }
    }
  }

  lemma {:induction false} KnotsListed(rows: seq<Row>, n: nat, k: KnotLayout.KnotItem)
    requires n <= |rows|
    ensures k in KnotsIn(rows, n) <==> SomeGives(rows, n, k)
    decreases n
  {
    if n > 0 {
      KnotsListed(rows, n - 1, k);
      OneRowGives(rows, n, k);
      assert SomeGives(rows, n, k) <==> SomeGives(rows, n - 1, k) || GivesKnot(rows, rows[n - 1], k);
    }
  }

  lemma {:induction false} OneRowGives(rows: seq<Row>, n: nat, k: KnotLayout.KnotItem)
    requires 0 < n <= |rows|
    ensures k in KnotsIn(rows, n) <==> k in KnotsIn(rows, n - 1) || GivesKnot(rows, rows[n - 1], k)
  {
    var row := rows[n - 1];
    var w := WindowFiled(rows, |rows|, row.key);
    WindowIs(rows, row, w.0, w.1);
    forall start | IsWindow(rows, row.key, start, k.t) ensures w.1 == k.t {
      WindowIs(rows, row, start, k.t);
    }
  }

  lemma {:induction false} KnotsGiven(rows: seq<Row>)
    ensures GivenKnots(rows, KnotsIn(rows, |rows|))
  {
    forall k ensures k in KnotsIn(rows, |rows|) <==> SomeGives(rows, |rows|, k) {
      KnotsListed(rows, |rows|, k);
    }
  }

  /** Each compiled curve has the base, the turns and the knots its rows give it. */
  lemma {:induction false} CurvesMean(cs: seq<Curve>, b: Bundle, i: nat)
      returns (at: seq<nat>, items: seq<KnotLayout.KnotItem>)
    requires InOrder(cs) && IsBundle(cs, b) && i < |cs|
    ensures |b.curves| == |cs| && CurveGiven(cs, i, b.curves[i], at, items)
  {
    assert IsCurve(cs, i, b.curves[i]);
    var rows := cs[i].rows;
    at := TurnsListed(rows, |rows|);
    items := KnotsIn(rows, |rows|);
    KnotsGiven(rows);
  }

  /** A curve lays out exactly when it names its currency, its rows give some knot, every knot lies after the value
      date, and those knots have a layout. */
  lemma {:induction false} LaysIff(c: Curve) returns (items: seq<KnotLayout.KnotItem>)
    ensures GivenKnots(c.rows, items)
    ensures CurveCompiles(c) <==>
            && c.currency != "" && (exists k :: SomeGives(c.rows, |c.rows|, k))
            && (forall k :: SomeGives(c.rows, |c.rows|, k) ==> k.t > 0.0)
            && KnotLayout.LayoutOf(c.regions, items).Ok?
  {
    items := KnotsIn(c.rows, |c.rows|);
    KnotsGiven(c.rows);
    if items != [] {
      assert SomeGives(c.rows, |c.rows|, items[0]);
    }
  }

  /** A turn jump pins the turn of the last turn row with its key, by that row's place among the curve's turns. */
  lemma {:induction false} TurnPinned(cs: seq<Curve>, i: nat, row: Row, at: seq<nat>)
    requires i < |cs| && RootFrom(cs, None, 0).Some? && Built(cs, i, row).Some?
    requires Built(cs, i, row).value.kind.TurnJump?
    requires ListsTurns(cs[i].rows, |cs[i].rows|, at, Turns(cs[i]))
    ensures var turn := Built(cs, i, row).value.turn;
            turn.Some? && turn.value < |at| && LastTurnWith(cs[i].rows, row.key, at[turn.value])
  {
    var rows := cs[i].rows;
    assert rows[..|rows|] == rows;
    var j := TurnFiledIs(rows, |rows|, row.key);
    var own := TurnsListed(rows, j);
    TurnStands(rows, own, j, at);
  }

  /** Of a curve's turn rows, the one at j has as many before it as the rows before j have turns. */
  lemma {:induction false} TurnStands(rows: seq<Row>, own: seq<nat>, j: nat, at: seq<nat>)
    requires j < |rows| && rows[j].shape.TurnRow?
    requires ListsTurns(rows, j, own, TurnsIn(rows, j)) && ListsTurns(rows, |rows|, at, TurnsIn(rows, |rows|))
    ensures |own| < |at| && at[|own|] == j
  {
    var r: nat :| r < |at| && at[r] == j;
    forall l ensures l in own <==> l in at[..r] {
      if l in own {
        assert l in at;
      }
    }
    SameAscending(own, at[..r]);
  }

  ghost predicate Rising(s: seq<nat>) {
    forall r, t :: 0 <= r < t < |s| ==> s[r] < s[t]
  }

  lemma {:induction false} SameAscending(a: seq<nat>, b: seq<nat>)
    requires Rising(a) && Rising(b) && forall x :: x in a <==> x in b
    ensures a == b
    decreases |a|
  {
    assert a == [] <==> b == [] by {
      assert a != [] ==> a[0] in a;
      assert b != [] ==> b[0] in b;
    }
    if a != [] {
      var m, n := |a| - 1, |b| - 1;
      assert a[m] in b && b[n] in a;
      assert a[m] == b[n];
      forall x ensures x in a[..m] <==> x in b[..n] {
        if x in a[..m] {
          assert x in a && x in b;
        }
        if x in b[..n] {
          assert x in b && x in a;
        }
      }
      SameAscending(a[..m], b[..n]);
      assert a == a[..m] + [a[m]] && b == b[..n] + [b[n]];
    }
  }

  ghost function AllKnots(curves: seq<CompiledCurve>, n: nat): seq<real>
    requires n <= |curves|
  {
    if n == 0 then [] else AllKnots(curves, n - 1) + KnotLayout.Knots(curves[n - 1].layout)
  }

  ghost function AllTurns(curves: seq<CompiledCurve>, n: nat): seq<Turn>
    requires n <= |curves|
  {
    if n == 0 then [] else AllTurns(curves, n - 1) + curves[n - 1].turns
  }

  /** The knot count is one for every knot and one for every turn of every curve. */
  lemma {:induction false} KnotCountIs(curves: seq<CompiledCurve>, n: nat)
    requires n <= |curves|
    ensures TotalKnots(curves, n) == |AllKnots(curves, n)| + |AllTurns(curves, n)|
  {
    if n > 0 {
      KnotCountIs(curves, n - 1);
    }
  }

  // ---- currency codes ----

  /** Among the first `n` curves, an outright one in currency a stands before every outright one in currency b. */
  ghost predicate OutrightFirst(cs: seq<Curve>, n: nat, a: string, b: string)
    requires n <= |cs|
  {
    exists i :: 0 <= i < n && OutrightIn(cs, i, a) && forall j :: 0 <= j <= i ==> !OutrightIn(cs, j, b)
  }

  /** Among the first `n` curves, one in currency a stands before every one in currency b. */
  ghost predicate CurveFirst(cs: seq<Curve>, n: nat, a: string, b: string)
    requires n <= |cs|
  {
    exists i :: 0 <= i < n && cs[i].currency == a && forall j :: 0 <= j <= i ==> cs[j].currency != b
  }

  /** Currency a is numbered before currency b: the outright curves' currencies come first, each at its first outright
      curve, then the others', each at its first curve. */
  ghost predicate NumberedBefore(cs: seq<Curve>, a: string, b: string) {
    if HasOutright(cs, a) then OutrightFirst(cs, |cs|, a, b)
    else !HasOutright(cs, b) && CurveFirst(cs, |cs|, a, b)
  }

  lemma {:induction false} FirstUsePrefix(known: seq<string>, names: seq<string>, more: seq<string>, n: nat)
    requires n <= |names|
    ensures FirstUse(known, names + more, n) == FirstUse(known, names, n)
  {
    if n > 0 {
      FirstUsePrefix(known, names, more, n - 1);
    }
  }

  lemma FirstUseSnoc(known: seq<string>, names: seq<string>, name: string)
    ensures var r := FirstUse(known, names, |names|);
            FirstUse(known, names + [name], |names| + 1) == if name in r then r else r + [name]
  {
    FirstUsePrefix(known, names, [name], |names|);
  }

  ghost function CodesMet(cs: seq<Curve>, known: seq<string>, outrightOnly: bool, n: nat): seq<string>
    requires n <= |cs|
  {
    FirstUse(known, NamesMet(cs, outrightOnly, n), |NamesMet(cs, outrightOnly, n)|)
  }

  lemma CodesMetAre(cs: seq<Curve>, known: seq<string>, outrightOnly: bool, n: nat, a: string)
    requires n <= |cs|
    ensures a in CodesMet(cs, known, outrightOnly, n) <==>
            a in known || exists i :: 0 <= i < n && cs[i].currency == a && !(outrightOnly && cs[i].row.spread)
  {
    var names := NamesMet(cs, outrightOnly, n);
    FirstUseIs(known, names, |names|, a);
    NamesMetAre(cs, outrightOnly, n, a);
    assert names[..|names|] == names;
  }

  lemma CodesMetStep(cs: seq<Curve>, known: seq<string>, outrightOnly: bool, n: nat)
    requires 0 < n <= |cs|
    ensures var before, name := CodesMet(cs, known, outrightOnly, n - 1), cs[n - 1].currency;
            CodesMet(cs, known, outrightOnly, n) ==
            if (outrightOnly && cs[n - 1].row.spread) || name in before then before else before + [name]
  {
    FirstUseSnoc(known, NamesMet(cs, outrightOnly, n - 1), cs[n - 1].currency);
  }

  lemma {:induction false} OutrightCodes(cs: seq<Curve>, n: nat)
    requires n <= |cs|
    ensures var r := CodesMet(cs, [], true, n);
            forall t, u :: 0 <= t < u < |r| ==> OutrightFirst(cs, n, r[t], r[u])
  {
    if n > 0 {
      OutrightCodes(cs, n - 1);
      CodesMetStep(cs, [], true, n);
      var before, after := CodesMet(cs, [], true, n - 1), CodesMet(cs, [], true, n);
      forall t, u | 0 <= t < u < |after| ensures OutrightFirst(cs, n, after[t], after[u]) {
        if u < |before| {
          assert OutrightFirst(cs, n - 1, before[t], before[u]);
        } else {
          assert before[t] in before;
          CodesMetAre(cs, [], true, n - 1, before[t]);
          CodesMetAre(cs, [], true, n - 1, after[u]);
          var i :| 0 <= i < n - 1 && cs[i].currency == before[t] && !cs[i].row.spread;
          assert OutrightIn(cs, i, before[t]);
          assert forall j :: 0 <= j <= i ==> !OutrightIn(cs, j, after[u]);
        }
      }
    }
  }

  lemma {:induction false} KnownCodesStay(cs: seq<Curve>, known: seq<string>, n: nat)
    requires n <= |cs|
    ensures var r := CodesMet(cs, known, false, n);
            known <= r && forall t :: |known| <= t < |r| ==> r[t] !in known
  {
    if n > 0 {
      KnownCodesStay(cs, known, n - 1);
      CodesMetStep(cs, known, false, n);
    }
  }

  lemma {:induction false} LaterCodes(cs: seq<Curve>, known: seq<string>, n: nat)
    requires n <= |cs|
    ensures var r := CodesMet(cs, known, false, n);
            |known| <= |r| && forall t, u :: |known| <= t < u < |r| ==> CurveFirst(cs, n, r[t], r[u])
  {
    KnownCodesStay(cs, known, n);
    if n > 0 {
      KnownCodesStay(cs, known, n - 1);
      LaterCodes(cs, known, n - 1);
      CodesMetStep(cs, known, false, n);
      var before, after := CodesMet(cs, known, false, n - 1), CodesMet(cs, known, false, n);
      forall t, u | |known| <= t < u < |after| ensures CurveFirst(cs, n, after[t], after[u]) {
        if u < |before| {
          assert CurveFirst(cs, n - 1, before[t], before[u]);
        } else {
          MetLast(cs, known, n, before[t], after[u]);
        }
      }
    }
  }

  lemma MetLast(cs: seq<Curve>, known: seq<string>, n: nat, a: string, b: string)
    requires 0 < n <= |cs| && a !in known && a in CodesMet(cs, known, false, n - 1)
    requires b !in CodesMet(cs, known, false, n - 1)
    ensures CurveFirst(cs, n, a, b)
  {
    CodesMetAre(cs, known, false, n - 1, a);
    CodesMetAre(cs, known, false, n - 1, b);
    var i :| 0 <= i < n - 1 && cs[i].currency == a;
    assert forall j :: 0 <= j <= i ==> cs[j].currency != b;
  }

  lemma KnownAreOutright(cs: seq<Curve>, a: string)
    ensures a in CodesMet(cs, [], true, |cs|) <==> HasOutright(cs, a)
  {
    CodesMetAre(cs, [], true, |cs|, a);
    if HasOutright(cs, a) {
      var i :| 0 <= i < |cs| && OutrightIn(cs, i, a);
      assert cs[i].currency == a;
    }
    if i :| 0 <= i < |cs| && cs[i].currency == a && !cs[i].row.spread {
      assert OutrightIn(cs, i, a);
    }
  }

  /** The currency codes: each currency once, in the order the compiler meets them. */
  lemma {:induction false} CodesInOrder(cs: seq<Curve>, b: Bundle)
    requires IsBundle(cs, b)
    ensures forall t, u :: 0 <= t < u < |b.codes| ==> NumberedBefore(cs, b.codes[t], b.codes[u])
  {
    var known := CodesMet(cs, [], true, |cs|);
    OutrightCodes(cs, |cs|);
    LaterCodes(cs, known, |cs|);
    KnownCodesStay(cs, known, |cs|);
    assert b.codes == CodesMet(cs, known, false, |cs|);
    forall t, u | 0 <= t < u < |b.codes| ensures NumberedBefore(cs, b.codes[t], b.codes[u]) {
      KnownAreOutright(cs, b.codes[t]);
      KnownAreOutright(cs, b.codes[u]);
      if u < |known| {
        assert OutrightFirst(cs, |cs|, known[t], known[u]);
        assert known[t] in known;
      } else if t < |known| {
        assert known[t] in known && b.codes[u] !in known;
        var i :| 0 <= i < |cs| && OutrightIn(cs, i, known[t]);
        assert forall j :: 0 <= j <= i ==> !OutrightIn(cs, j, b.codes[u]);
      } else {
        assert b.codes[t] !in known && b.codes[u] !in known;
        assert CurveFirst(cs, |cs|, b.codes[t], b.codes[u]);
      }
    }
  }
}
