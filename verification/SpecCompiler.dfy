/** The spec compiler's passes (api/compile.cpp, compile_spec): what every compiled bundle's references satisfy. */
module SpecCompiler {
  import opened Wrappers
  import KnotLayout
  import CurveOrder
  import MeetingChain
  import opened SpecDates
  import opened SpecModel

  // ---- the order the passes run in ----

  /** Distinct ids, each curve after its base. */
  ghost predicate InOrder(cs: seq<Curve>) {
    && (forall i, j :: 0 <= i < j < |cs| ==> cs[i].row.id != cs[j].row.id)
    && forall i :: 0 <= i < |cs| && CurveOrder.HasBase(cs[i].row) ==> BaseOf(cs, i).Some? && BaseOf(cs, i).value < i
  }

  function RowsOf(drafts: seq<Draft>): (rows: seq<CurveOrder.CurveRow>)
    ensures |rows| == |drafts| && forall i :: 0 <= i < |rows| ==> rows[i] == drafts[i].row
  {
    seq(|drafts|, i requires 0 <= i < |drafts| => drafts[i].row)
  }

  /** The curve an id stands for: of two with one id, the later. */
  function DraftOf(drafts: seq<Draft>, n: nat, id: string): (c: Draft)
    requires n <= |drafts| && exists i :: 0 <= i < n && drafts[i].row.id == id
    ensures c.row.id == id && c in drafts
  {
    if drafts[n - 1].row.id == id then drafts[n - 1] else DraftOf(drafts, n - 1, id)
  }

  /** Of several curves with one id, the last is compiled. */
  lemma {:induction false} LaterDraftWins(drafts: seq<Draft>, n: nat, id: string) returns (i: nat)
    requires n <= |drafts| && exists i :: 0 <= i < n && drafts[i].row.id == id
    ensures i < n && drafts[i] == DraftOf(drafts, n, id) && forall j :: i < j < n ==> drafts[j].row.id != id
  {
    if drafts[n - 1].row.id == id {
      i := n - 1;
    } else {
      i := LaterDraftWins(drafts, n - 1, id);
    }
  }

  lemma {:induction false} DraftOfIsById(drafts: seq<Draft>, n: nat, id: string)
    requires n <= |drafts| && exists i :: 0 <= i < n && drafts[i].row.id == id
    ensures var rows := CurveOrder.ById(RowsOf(drafts)[..n]); id in rows && rows[id] == DraftOf(drafts, n, id).row
  {
    var rows := RowsOf(drafts)[..n];
    assert rows[..n - 1] == RowsOf(drafts)[..n - 1] && rows[n - 1] == drafts[n - 1].row;
    if drafts[n - 1].row.id != id {
      DraftOfIsById(drafts, n - 1, id);
    }
  }

  // ---- the bundle ----

  /** Some curve is outright, every curve names a currency and lays out knots that all lie in the future, and every
      quoting row builds: what a spec needs to compile, its curves being ordered. */
  ghost predicate Compiles(cs: seq<Curve>) {
    && RootFrom(cs, None, 0).Some?
    && AllLay(cs)
    && AllQuoted(cs, |cs|) != [] && AllBuild(cs, AllQuoted(cs, |cs|))
  }

  ghost predicate AllLay(cs: seq<Curve>) {
    forall i :: 0 <= i < |cs| ==> CurveCompiles(cs[i])
  }

  /** Every one of these rows builds. */
  ghost predicate AllBuild(cs: seq<Curve>, quoted: seq<Placed>)
    requires RootFrom(cs, None, 0).Some?
  {
    forall r :: 0 <= r < |quoted| ==> quoted[r].curve < |cs| && Built(cs, quoted[r].curve, quoted[r].row).Some?
  }

  predicate CurveCompiles(c: Curve) {
    c.currency != "" && KnotsFuture(KnotsIn(c.rows, |c.rows|)) && Laid(c).Ok?
  }

  function CompiledOf(cs: seq<Curve>, i: nat): CompiledCurve
    requires i < |cs| && CurveCompiles(cs[i]) && cs[i].currency in Codes(cs)
  {
    CompiledCurve(if BaseOf(cs, i).Some? then BaseOf(cs, i).value else -1,
                  CurveOrder.IndexOf(Codes(cs), cs[i].currency),
                  Laid(cs[i]).layout, Turns(cs[i]))
  }

  /** The bundle of an ordered spec, row by row. */
  ghost predicate IsBundle(cs: seq<Curve>, b: Bundle) {
    && Compiles(cs)
    && b.codes == Codes(cs)
    && AreCurves(cs, b.curves)
    && AreRows(cs, AllQuoted(cs, |cs|), b.instruments, b.starts, b.drifts)
    && b.nKnots == TotalKnots(b.curves, |b.curves|)
  }

  ghost predicate AreCurves(cs: seq<Curve>, curves: seq<CompiledCurve>) {
    |curves| == |cs| && forall i :: 0 <= i < |cs| ==> IsCurve(cs, i, curves[i])
  }

  ghost predicate IsCurve(cs: seq<Curve>, i: nat, c: CompiledCurve)
    requires i < |cs|
  {
    CurveCompiles(cs[i]) && cs[i].currency in Codes(cs) && c == CompiledOf(cs, i)
  }

  ghost predicate IsRow(cs: seq<Curve>, p: Placed, ins: Instrument, start: real, drift: real)
    requires RootFrom(cs, None, 0).Some?
  {
    && p.curve < |cs| && p.row in cs[p.curve].rows && Quotes(p.row)
    && Built(cs, p.curve, p.row) == Some(ins) && start == p.row.market && drift == p.row.drift
  }

  /** The three lists run parallel to the quoting rows. */
  ghost predicate AreRows(cs: seq<Curve>, quoted: seq<Placed>, instruments: seq<Instrument>, starts: seq<real>,
                          drifts: seq<real>)
    requires RootFrom(cs, None, 0).Some?
  {
    && |instruments| == |starts| == |drifts| == |quoted|
    && forall r :: 0 <= r < |quoted| ==> IsRow(cs, quoted[r], instruments[r], starts[r], drifts[r])
  }

  // ---- reference integrity ----

  lemma RolesBounded(cs: seq<Curve>, i: nat, row: Row)
    requires i < |cs| && RootFrom(cs, None, 0).Some? && Roles(cs, i, row).Some?
    ensures var roles := Roles(cs, i, row).value;
            roles != [] && roles[0] == i && forall k :: 0 <= k < |roles| ==> roles[k] < |cs|
  {
    assert Disc(cs, i) < |cs|;
    assert Bench(cs, i, row).Some? ==> Bench(cs, i, row).value < |cs|;
    assert FxOther(cs, i, row).Some? ==> FxOther(cs, i, row).value < |cs|;
  }

  /** Every role of a row names a curve of the spec, its first the row's own; its start is its instrument's target. */
  lemma RolesInRange(cs: seq<Curve>, p: Placed, ins: Instrument, start: real, drift: real)
    requires RootFrom(cs, None, 0).Some? && IsRow(cs, p, ins, start, drift)
    ensures ins.roles != [] && ins.roles[0] == p.curve && start == ins.market
    ensures forall k :: 0 <= k < |ins.roles| ==> ins.roles[k] < |cs|
  {
    RolesBounded(cs, p.curve, p.row);
  }

  lemma DiscIsOutright(cs: seq<Curve>, i: nat)
    requires i < |cs| && RootFrom(cs, None, 0).Some?
    ensures Disc(cs, i) < |cs| && !cs[Disc(cs, i)].row.spread
    ensures (exists j :: 0 <= j < |cs| && !cs[j].row.spread && cs[j].currency == cs[i].currency) ==>
      cs[Disc(cs, i)].currency == cs[i].currency
    ensures forall j :: 0 <= j < Disc(cs, i) && !cs[j].row.spread ==> cs[j].currency != cs[i].currency
                                                                      || cs[Disc(cs, i)].currency != cs[i].currency
  {
    RootIsFirst(cs, Some(cs[i].currency), 0);
    RootIsFirst(cs, None, 0);
  }

  lemma {:induction false} RootIsFirst(cs: seq<Curve>, currency: Option<string>, i: nat)
    requires i <= |cs|
    ensures var root := RootFrom(cs, currency, i);
            forall j :: i <= j < |cs| && (root.Some? ==> j < root.value) && !cs[j].row.spread ==>
              currency.Some? && cs[j].currency != currency.value
    decreases |cs| - i
  {
    if i < |cs| && RootFrom(cs, currency, i) != Some(i) {
      RootIsFirst(cs, currency, i + 1);
    }
  }

  /** A named benchmark or FX curve is never the row's own curve; an unnamed benchmark is, exactly when the row's curve
      has no base and is its own discount root, and that is not refused. */
  lemma BenchIsSelfIff(cs: seq<Curve>, i: nat, row: Row)
    requires InOrder(cs) && i < |cs| && RootFrom(cs, None, 0).Some?
    ensures Bench(cs, i, row) == Some(i) <==> row.bench == "" && !CurveOrder.HasBase(cs[i].row) && Disc(cs, i) == i
    ensures FxOther(cs, i, row) != Some(i)
  {
  }

  /** A basis row quoted against itself: one outright curve whose only row is a spread with no benchmark named. */
  const SELF_QUOTED := Curve(CurveOrder.CurveRow("usd", false, ""), "USD", [],
    [Row("s", PlainRow, true, true, ParSpread, 0.001, None, None, None, 0.0, "", "", 0.0, 2.0, Turn(0.0, 0.0), None,
         None, [], 0, true)])

  /** It compiles, and the instrument's own, benchmark and discount curves are one and the same. */
  lemma SelfQuotedCompiles()
    ensures var cs := [SELF_QUOTED]; InOrder(cs) && Compiles(cs)
    ensures var cs := [SELF_QUOTED]; var row := cs[0].rows[0];
            Built(cs, 0, row) == Some(Instrument(ParSpread, [0, 0, 0], None, 0.001, 0.0, 0.0, 1.0))
  {
    var cs := [SELF_QUOTED];
    var rows := cs[0].rows;
    var row := rows[0];
    assert RootFrom(cs, None, 0) == Some(0) && RootFrom(cs, Some("USD"), 0) == Some(0);
    assert Disc(cs, 0) == 0 && Bench(cs, 0, row) == Some(0);
    assert TurnFiled(rows, 0, "s").None? && TurnFiled(rows, 1, "s").None?;
    assert WindowFiled(rows, 1, "s") == (0.0, 2.0);
    assert KnotsIn(rows, 0) == [];
    assert KnotsIn(rows, 1) == [KnotLayout.KnotItem(2.0, None, None)];
    assert CurveCompiles(cs[0]);
    assert QuotedRows(0, rows, 0) == [];
    assert QuotedRows(0, rows, 1) == [Placed(0, row)];
    assert AllQuoted(cs, 0) == [];
    assert AllQuoted(cs, 1) == [Placed(0, row)];
  }

  ghost predicate NoRepeats(s: seq<string>) {
    forall i, j :: 0 <= i < j < |s| ==> s[i] != s[j]
  }

  /** The tag table inverts: a curve's code is its currency, equal tags mean equal currencies, codes never repeat, and
      each is some curve's. */
  lemma TagsInvert(cs: seq<Curve>, b: Bundle)
    requires IsBundle(cs, b)
    ensures forall i :: 0 <= i < |cs| ==> TagIs(b, i, cs[i].currency)
    ensures NoRepeats(b.codes)
    ensures forall t :: 0 <= t < |b.codes| ==> exists i :: 0 <= i < |cs| && cs[i].currency == b.codes[t]
  {
    forall i | 0 <= i < |cs| ensures TagIs(b, i, cs[i].currency) {
      assert IsCurve(cs, i, b.curves[i]);
    }
    CodesDiffer(cs);
    forall t | 0 <= t < |b.codes| ensures exists i :: 0 <= i < |cs| && cs[i].currency == b.codes[t] {
      CodesAre(cs, b.codes[t]);
    }
  }

  ghost predicate TagIs(b: Bundle, i: nat, currency: string)
    requires i < |b.curves|
  {
    b.curves[i].tag < |b.codes| && b.codes[b.curves[i].tag] == currency
  }

  lemma CodesDiffer(cs: seq<Curve>)
    ensures NoRepeats(Codes(cs))
  {
    var outright, all := NamesMet(cs, true, |cs|), NamesMet(cs, false, |cs|);
    FirstUseDiffers([], outright, |outright|);
    FirstUseDiffers(FirstUse([], outright, |outright|), all, |all|);
  }

  lemma CodesAre(cs: seq<Curve>, name: string)
    ensures name in Codes(cs) <==> exists i :: 0 <= i < |cs| && cs[i].currency == name
  {
    var outright, all := NamesMet(cs, true, |cs|), NamesMet(cs, false, |cs|);
    FirstUseIs([], outright, |outright|, name);
    FirstUseIs(FirstUse([], outright, |outright|), all, |all|, name);
    assert outright[..|outright|] == outright && all[..|all|] == all;
    NamesMetAre(cs, true, |cs|, name);
    NamesMetAre(cs, false, |cs|, name);
  }

  lemma {:induction false} FirstUseDiffers(known: seq<string>, names: seq<string>, n: nat)
    requires n <= |names| && NoRepeats(known)
    ensures NoRepeats(FirstUse(known, names, n))
  {
    if n > 0 {
      FirstUseDiffers(known, names, n - 1);
      var before := FirstUse(known, names, n - 1);
      if names[n - 1] !in before {
        var r := before + [names[n - 1]];
        forall i, j | 0 <= i < j < |r| ensures r[i] != r[j] {
          assert r[i] in before;
        }
      }
    }
  }

  lemma {:induction false} FirstUseIs(known: seq<string>, names: seq<string>, n: nat, name: string)
    requires n <= |names|
    ensures name in FirstUse(known, names, n) <==> name in known || name in names[..n]
  {
    if n > 0 {
      FirstUseIs(known, names, n - 1, name);
      assert names[..n] == names[..n - 1] + [names[n - 1]];
    }
  }

  lemma {:induction false} NamesMetAre(cs: seq<Curve>, outrightOnly: bool, n: nat, name: string)
    requires n <= |cs|
    ensures name in NamesMet(cs, outrightOnly, n) <==>
            exists i :: 0 <= i < n && cs[i].currency == name && !(outrightOnly && cs[i].row.spread)
  {
    if n > 0 {
      NamesMetAre(cs, outrightOnly, n - 1, name);
    }
  }

  ghost predicate UniqueKeys(rows: seq<Row>) {
    forall i, j :: 0 <= i < j < |rows| ==> rows[i].key != rows[j].key
  }

  lemma {:induction false} OwnTurn(rows: seq<Row>, n: nat, j: nat)
    requires UniqueKeys(rows) && j < n <= |rows|
    ensures var filed := TurnFiled(rows, n, rows[j].key);
            if rows[j].shape.TurnRow? then filed.Some? && TurnsIn(rows, n)[filed.value] == rows[j].turn
            else filed.None? && LastWindow(rows, n, rows[j].key) == (rows[j].start, rows[j].end)
  {
    if j < n - 1 {
      OwnTurn(rows, n - 1, j);
    } else {
      NotFiled(rows, n - 1, rows[j].key);
    }
  }

  lemma {:induction false} NotFiled(rows: seq<Row>, n: nat, key: string)
    requires n <= |rows| && forall i :: 0 <= i < n ==> rows[i].key != key
    ensures TurnFiled(rows, n, key).None?
  {
    if n > 0 {
      NotFiled(rows, n - 1, key);
    }
  }

  /** What a key files on a curve with unique keys: a turn row's own turn, another row's own window. */
  ghost predicate FiledTrue(rows: seq<Row>, row: Row) {
    var filed := TurnFiled(rows, |rows|, row.key);
    if row.shape.TurnRow? then filed.Some? && TurnsIn(rows, |rows|)[filed.value] == row.turn
    else filed.None? && LastWindow(rows, |rows|, row.key) == (row.start, row.end)
  }

  lemma FiledUnderOwnKey(rows: seq<Row>, row: Row)
    requires UniqueKeys(rows) && row in rows
    ensures FiledTrue(rows, row)
  {
    var j :| 0 <= j < |rows| && rows[j] == row;
    OwnTurn(rows, |rows|, j);
  }

  /** With unique keys, a turn row quoted as a jump pins the turn built from its own row, on its own curve. */
  lemma JumpPinsItsOwnTurn(cs: seq<Curve>, p: Placed, ins: Instrument, start: real, drift: real)
    requires RootFrom(cs, None, 0).Some? && IsRow(cs, p, ins, start, drift) && ins.kind.TurnJump?
    requires UniqueKeys(cs[p.curve].rows)
    ensures p.row.shape.TurnRow? && ins.roles == [p.curve] && ins.turn.Some?
    ensures ins.turn.value < |Turns(cs[p.curve])| && Turns(cs[p.curve])[ins.turn.value] == p.row.turn
  {
    FiledUnderOwnKey(cs[p.curve].rows, p.row);
  }

  /** With unique keys, the window a rate row is built on is its own, and it ends after it starts. */
  lemma RateWindowIsOwn(cs: seq<Curve>, p: Placed, ins: Instrument, start: real, drift: real)
    requires RootFrom(cs, None, 0).Some? && IsRow(cs, p, ins, start, drift) && ins.kind.Rate?
    requires UniqueKeys(cs[p.curve].rows) && p.row.shape.PlainRow?
    ensures WindowFiled(cs[p.curve].rows, |cs[p.curve].rows|, p.row.key) == (p.row.start, p.row.end)
    ensures p.row.start < p.row.end
  {
    FiledUnderOwnKey(cs[p.curve].rows, p.row);
  }

  /** A compiled quoted meeting is built on the window its chain says: from the adjusted end of the meeting before it
      (the first from spot) to its own end, which comes later. */
  lemma MeetingWindowCompiles(ds: seq<Draft>, cs: seq<Curve>, p: Placed, ins: Instrument, start: real, drift: real,
                              i: nat)
    requires AreSettled(ds, cs) && RootFrom(cs, None, 0).Some? && IsRow(cs, p, ins, start, drift) && ins.kind.Rate?
    requires UniqueKeys(cs[p.curve].rows) && MeetingChain.Lawful(ds[p.curve].dates.rolled)
    requires MeetingChain.RateMeetings(ds[p.curve].dates.rolled, ChainRows(ds[p.curve].rows))
    requires i < |Chain(ds[p.curve])| && Chain(ds[p.curve])[i].row.key == p.row.key
    ensures var rows := cs[p.curve].rows;
            WindowFiled(rows, |rows|, p.row.key) == MeetingWindow(ds[p.curve], i)
    ensures MeetingWindow(ds[p.curve], i).0 < MeetingWindow(ds[p.curve], i).1
  {
    var j := MeetingSettles(ds[p.curve], i);
    SameKeySameRow(cs[p.curve].rows, j, p.row);
    RateWindowIsOwn(cs, p, ins, start, drift);
  }

  lemma SameKeySameRow(rows: seq<Row>, j: nat, row: Row)
    requires UniqueKeys(rows) && j < |rows| && row in rows && rows[j].key == row.key
    ensures rows[j] == row
  {
    var k :| 0 <= k < |rows| && rows[k] == row;
    assert j == k;
  }

  /** Consecutive windows of a curve's quoted meetings abut if and only if the earlier end does not move when adjusted
      again. */
  lemma {:induction false} MeetingWindowsAbutIff(c: Draft, i: nat)
    requires 0 < i < |Chain(c)|
    ensures MeetingWindow(c, i).0 == MeetingWindow(c, i - 1).1 <==>
            c.dates.rolled.adjust(Chain(c)[i - 1].end) == Chain(c)[i - 1].end
  {
    SameYears(c.dates, c.dates.rolled.adjust(Chain(c)[i - 1].end), Chain(c)[i - 1].end);
  }

  lemma SameYears(d: Dates, a: int, b: int)
    ensures Years(d, a) == Years(d, b) <==> a == b
  {
    assert Years(d, a) * 365.0 == (a - d.valueDate) as real;
    assert Years(d, b) * 365.0 == (b - d.valueDate) as real;
  }

  /** A curve's base stands before it, and every target lies in its band with a decay in [0, 1]. */
  lemma BasesAndBands(cs: seq<Curve>, b: Bundle)
    requires InOrder(cs) && IsBundle(cs, b)
    ensures forall i :: 0 <= i < |b.curves| ==>
      -1 <= b.curves[i].base < i && (b.curves[i].base >= 0 <==> CurveOrder.HasBase(cs[i].row))
    ensures forall r :: 0 <= r < |b.instruments| ==> var ins := b.instruments[r];
              0.0 <= ins.decay <= 1.0 && (ins.upper > ins.lower ==> ins.lower <= ins.market <= ins.upper)
  {
    forall i | 0 <= i < |b.curves|
      ensures -1 <= b.curves[i].base < i && (b.curves[i].base >= 0 <==> CurveOrder.HasBase(cs[i].row))
    {
      assert IsCurve(cs, i, b.curves[i]);
    }
    forall r | 0 <= r < |b.instruments|
      ensures var ins := b.instruments[r];
              0.0 <= ins.decay <= 1.0 && (ins.upper > ins.lower ==> ins.lower <= ins.market <= ins.upper)
    {
      assert IsRow(cs, AllQuoted(cs, |cs|)[r], b.instruments[r], b.starts[r], b.drifts[r]);
    }
  }

  // ---- the program ----

  /** Some row carries the id. */
  ghost predicate Known(drafts: seq<Draft>, id: string) {
    exists i :: 0 <= i < |drafts| && drafts[i].row.id == id
  }

  /** The drafts in compile order. */
  ghost function InOrderOf(drafts: seq<Draft>, order: seq<string>): (ds: seq<Draft>)
    requires forall i :: 0 <= i < |order| ==> Known(drafts, order[i])
    ensures |ds| == |order|
    ensures forall i :: 0 <= i < |ds| ==> Known(drafts, order[i]) && ds[i] == DraftOf(drafts, |drafts|, order[i])
  {
    seq(|order|, i requires 0 <= i < |order| && Known(drafts, order[i]) => DraftOf(drafts, |drafts|, order[i]))
  }

  /** The spec's curves in compile order, each id standing for its last row; none when the order is refused. */
  ghost function Ordered(drafts: seq<Draft>): Option<seq<Draft>> {
    var order := CurveOrder.Order(RowsOf(drafts));
    if order.Err? then None else
      OrderIsKnown(drafts);
      Some(InOrderOf(drafts, order.value))
  }

  lemma OrderIsKnown(drafts: seq<Draft>)
    requires CurveOrder.Order(RowsOf(drafts)).Ok?
    ensures var order := CurveOrder.Order(RowsOf(drafts)).value; forall i :: 0 <= i < |order| ==>
      Known(drafts, order[i])
  {
    CurveOrder.OrderSound(RowsOf(drafts));
    var order := CurveOrder.Order(RowsOf(drafts)).value;
    forall i | 0 <= i < |order| ensures Known(drafts, order[i]) {
      IsKnown(drafts, order[i]);
    }
  }

  /** The curves of a spec that the passes accept: ordered, every token resolved, and compiled in that order. */
  ghost predicate Accepted(drafts: seq<Draft>, cs: seq<Curve>) {
    Ordered(drafts).Some? && AreSettled(Ordered(drafts).value, cs) && Compiles(cs)
  }

  /** A spec compiles if and only if its curves can be ordered, their tokens resolve, and the passes accept them. */
  method CompileSpec(drafts: seq<Draft>) returns (r: Option<Bundle>)
    ensures r.Some? <==> exists cs :: Accepted(drafts, cs)
    ensures r.Some? ==> forall cs :: Accepted(drafts, cs) ==> InOrder(cs) && IsBundle(cs, r.value)
  {
    var rows := RowsOf(drafts);
    var ordered := CurveOrder.OrderCurves(rows);
    if ordered.Err? {
      return None;
    }
    CurveOrder.OrderSound(rows);
    OrderIsKnown(drafts);
    ghost var byId, order := CurveOrder.ById(rows), CurveOrder.Order(rows).value;
    var ds := Sorted(drafts, byId, order, ordered.value);
    assert ds == Ordered(drafts).value;
    var cs := SettleAll(ds);
    if cs.None? {
      assert !AllSettle(Ordered(drafts).value);
      return None;
    }
    OrderedRows(byId, order, cs.value);
    r := Passes(cs.value);
    AcceptedOnce(drafts, cs.value);
  }

  lemma AcceptedOnce(drafts: seq<Draft>, cs: seq<Curve>)
    requires Ordered(drafts).Some? && AreSettled(Ordered(drafts).value, cs)
    ensures Accepted(drafts, cs) <==> Compiles(cs)
    ensures forall other :: Accepted(drafts, other) ==> other == cs
  {
    forall other | Accepted(drafts, other) ensures other == cs {
      SettledOnce(Ordered(drafts).value, other, cs);
    }
  }

  lemma SettledOnce(ds: seq<Draft>, a: seq<Curve>, b: seq<Curve>)
    requires AreSettled(ds, a) && AreSettled(ds, b)
    ensures a == b
  {
    forall i | 0 <= i < |a| ensures a[i] == b[i] {
      assert SettledCurve(ds[i]) == Some(a[i]) && SettledCurve(ds[i]) == Some(b[i]);
    }
  }

  /** `d` is the draft an id stands for. */
  ghost predicate Stands(drafts: seq<Draft>, byId: CurveOrder.Rows, id: string, d: Draft) {
    Known(drafts, id) && d == DraftOf(drafts, |drafts|, id) && id in byId && d.row == byId[id]
  }

  ghost predicate SortedBy(drafts: seq<Draft>, byId: CurveOrder.Rows, order: seq<string>, ds: seq<Draft>) {
    |ds| <= |order| && forall i :: 0 <= i < |ds| ==> Stands(drafts, byId, order[i], ds[i])
  }

  lemma OneMoreStands(drafts: seq<Draft>, byId: CurveOrder.Rows, order: seq<string>, ds: seq<Draft>, d: Draft)
    requires SortedBy(drafts, byId, order, ds) && |ds| < |order| && Stands(drafts, byId, order[|ds|], d)
    ensures SortedBy(drafts, byId, order, ds + [d])
  {
  }

  method Sorted(drafts: seq<Draft>, ghost byId: CurveOrder.Rows, ghost order: seq<string>,
                rows: seq<CurveOrder.CurveRow>)
    returns (ds: seq<Draft>)
    requires byId == CurveOrder.ById(RowsOf(drafts)) && CurveOrder.Ordered(byId, order) && |rows| == |order|
    requires forall i :: 0 <= i < |rows| ==> order[i] in byId && rows[i] == byId[order[i]]
    ensures |ds| == |order| && SortedBy(drafts, byId, order, ds)
  {
    ds := [];
    var n := |rows|;
    for i := 0 to n
      invariant |ds| == i && SortedBy(drafts, byId, order, ds)
    {
      assert rows[i].id == order[i];
      IsKnown(drafts, rows[i].id);
      var d := DraftOf(drafts, |drafts|, rows[i].id);
      OneMoreStands(drafts, byId, order, ds, d);
      ds := ds + [d];
    }
  }

  lemma IsKnown(drafts: seq<Draft>, id: string)
    requires id in CurveOrder.ById(RowsOf(drafts))
    ensures Known(drafts, id)
    ensures DraftOf(drafts, |drafts|, id).row == CurveOrder.ById(RowsOf(drafts))[id]
  {
    var i :| 0 <= i < |RowsOf(drafts)| && RowsOf(drafts)[i].id == id;
    assert drafts[i].row.id == id;
    assert RowsOf(drafts)[..|drafts|] == RowsOf(drafts);
    DraftOfIsById(drafts, |drafts|, id);
  }

  lemma OrderedRows(byId: CurveOrder.Rows, order: seq<string>, cs: seq<Curve>)
    requires CurveOrder.Ordered(byId, order) && |cs| == |order|
    requires forall i :: 0 <= i < |cs| ==> order[i] in byId && cs[i].row == byId[order[i]] && cs[i].row.id == order[i]
    ensures InOrder(cs)
  {
    forall i | 0 <= i < |cs| && CurveOrder.HasBase(cs[i].row) ensures BaseOf(cs, i).Some? && BaseOf(cs, i).value < i {
      assert CurveOrder.BaseBefore(byId, order, i);
      var j :| 0 <= j < i && order[j] == cs[i].row.base;
      assert cs[j].row.id == cs[i].row.base;
    }
  }

  method Passes(cs: seq<Curve>) returns (r: Option<Bundle>)
    requires InOrder(cs)
    ensures r.Some? <==> Compiles(cs)
    ensures r.Some? ==> IsBundle(cs, r.value)
  {
    if RootFrom(cs, None, 0).None? {
      return None;
    }
    var codes := Numbered(cs);
    var curves := Topology(cs, codes);
    if curves.None? {
      return None;
    }
    var rows := Instruments(cs);
    if rows.None? {
      return None;
    }
    var nKnots := KnotCount(curves.value);
    r := Finish(cs, curves.value, rows.value.0, rows.value.1, rows.value.2, codes, nKnots);
  }

  /** Both passes are through, with these lists. */
  ghost predicate Passed(cs: seq<Curve>, curves: seq<CompiledCurve>, instruments: seq<Instrument>, starts: seq<real>,
                         drifts: seq<real>, codes: seq<string>, nKnots: nat) {
    && RootFrom(cs, None, 0).Some? && AllLay(cs) && AllBuild(cs, AllQuoted(cs, |cs|))
    && codes == Codes(cs) && AreCurves(cs, curves)
    && AreRows(cs, AllQuoted(cs, |cs|), instruments, starts, drifts)
    && nKnots == TotalKnots(curves, |curves|)
  }

  /** A spec with no quoting row at all is refused last. */
  method Finish(ghost cs: seq<Curve>, curves: seq<CompiledCurve>, instruments: seq<Instrument>, starts: seq<real>,
                drifts: seq<real>, codes: seq<string>, nKnots: nat) returns (r: Option<Bundle>)
    requires Passed(cs, curves, instruments, starts, drifts, codes, nKnots)
    ensures r.Some? <==> Compiles(cs)
    ensures r.Some? ==> IsBundle(cs, r.value)
  {
    if |instruments| == 0 {
      return None;
    }
    r := Some(Bundle(curves, instruments, starts, drifts, codes, nKnots));
  }

  method KnotCount(curves: seq<CompiledCurve>) returns (nKnots: nat)
    ensures nKnots == TotalKnots(curves, |curves|)
  {
    nKnots := 0;
    var n := |curves|;
    for i := 0 to n
      invariant nKnots == TotalKnots(curves, i)
    {
      nKnots := nKnots + BlockSize(curves[i]);
    }
  }

  /** `ccy_index`: the tag of a name, numbering it when it is met for the first time. */
  method Numbered(cs: seq<Curve>) returns (codes: seq<string>)
    ensures codes == Codes(cs)
  {
    var outright := Named(cs, true);
    codes := NumberAll([], outright);
    var all := Named(cs, false);
    codes := NumberAll(codes, all);
  }

  method Named(cs: seq<Curve>, outrightOnly: bool) returns (names: seq<string>)
    ensures names == NamesMet(cs, outrightOnly, |cs|)
  {
    names := [];
    var n := |cs|;
    for i := 0 to n
      invariant names == NamesMet(cs, outrightOnly, i)
    {
      if !(outrightOnly && cs[i].row.spread) {
        names := names + [cs[i].currency];
      }
    }
  }

  method NumberAll(known: seq<string>, names: seq<string>) returns (codes: seq<string>)
    ensures codes == FirstUse(known, names, |names|)
  {
    codes := known;
    var n := |names|;
    for i := 0 to n
      invariant codes == FirstUse(known, names, i)
    {
      if names[i] !in codes {
        codes := codes + [names[i]];
      }
    }
  }

  /** Pass 1: each curve's base, currency tag, layout and turns. */
  method Topology(cs: seq<Curve>, codes: seq<string>) returns (curves: Option<seq<CompiledCurve>>)
    requires InOrder(cs) && codes == Codes(cs)
    ensures curves.Some? <==> AllLay(cs)
    ensures curves.Some? ==> AreCurves(cs, curves.value)
  {
    var done: seq<CompiledCurve> := [];
    var n := |cs|;
    for i := 0 to n
      invariant |done| == i && forall j :: 0 <= j < i ==> CurveCompiles(cs[j]) && IsCurve(cs, j, done[j])
    {
      var compiled := Lay(cs, codes, i);
      if compiled.None? {
        return None;
      }
      done := done + [compiled.value];
    }
    curves := Some(done);
  }

  method Lay(cs: seq<Curve>, codes: seq<string>, i: nat) returns (c: Option<CompiledCurve>)
    requires InOrder(cs) && codes == Codes(cs) && i < |cs|
    ensures c.Some? <==> CurveCompiles(cs[i])
    ensures c.Some? ==> IsCurve(cs, i, c.value)
  {
    var rows := cs[i].rows;
    var turns: seq<Turn>, items := [], [];
    var n := |rows|;
    for j := 0 to n
      invariant turns == TurnsIn(rows, j)
    {
      if rows[j].shape.TurnRow? {
        turns := turns + [rows[j].turn];
      }
    }
    for j := 0 to n
      invariant items == KnotsIn(rows, j)
    {
      if rows[j].shape.PortfolioRow? {
        items := items + rows[j].knots;
      } else if rows[j].addsKnot {
        items := items + [KnotLayout.KnotItem(WindowFiled(rows, n, rows[j].key).1, rows[j].region, rows[j].knotRegion)];
      }
    }
    if !KnotsFuture(items) || cs[i].currency == "" {
      return None;
    }
    var base := -1;
    if CurveOrder.HasBase(cs[i].row) {
      base := Place(cs, cs[i].row.base).value;
      if base >= i {
        return None;
      }
    }
    var laid := KnotLayout.CurveLayout(cs[i].regions, items);
    if laid.Err? {
      return None;
    }
    CodesAre(cs, cs[i].currency);
    c := Some(CompiledCurve(base, CurveOrder.IndexOf(codes, cs[i].currency), laid.layout, turns));
  }

  /** Pass 2: the three parallel lists, one entry each per quoting row, curve by curve. */
  method Instruments(cs: seq<Curve>) returns (rows: Option<(seq<Instrument>, seq<real>, seq<real>)>)
    requires RootFrom(cs, None, 0).Some?
    ensures rows.Some? <==> AllBuild(cs, AllQuoted(cs, |cs|))
    ensures rows.Some? ==> AreRows(cs, AllQuoted(cs, |cs|), rows.value.0, rows.value.1, rows.value.2)
  {
    var instruments: seq<Instrument>, starts: seq<real>, drifts: seq<real> := [], [], [];
    var n := |cs|;
    for i := 0 to n
      invariant AreRows(cs, AllQuoted(cs, i), instruments, starts, drifts) && AllBuild(cs, AllQuoted(cs, i))
    {
      var part := CurveRows(cs, i);
      if part.None? {
        NotAllBuild(cs, i);
        return None;
      }
      AreRowsConcat(cs, AllQuoted(cs, i), instruments, starts, drifts, QuotedRows(i, cs[i].rows, |cs[i].rows|),
                    part.value.0, part.value.1, part.value.2);
      instruments, starts, drifts := instruments + part.value.0, starts + part.value.1, drifts + part.value.2;
    }
    rows := Some((instruments, starts, drifts));
  }

  method CurveRows(cs: seq<Curve>, i: nat) returns (part: Option<(seq<Instrument>, seq<real>, seq<real>)>)
    requires RootFrom(cs, None, 0).Some? && i < |cs|
    ensures part.Some? <==> AllBuild(cs, QuotedRows(i, cs[i].rows, |cs[i].rows|))
    ensures part.Some? ==>
      AreRows(cs, QuotedRows(i, cs[i].rows, |cs[i].rows|), part.value.0, part.value.1, part.value.2)
  {
    var rows := cs[i].rows;
    var instruments: seq<Instrument>, starts: seq<real>, drifts: seq<real> := [], [], [];
    var n := |rows|;
    for j := 0 to n
      invariant AreRows(cs, QuotedRows(i, rows, j), instruments, starts, drifts) && AllBuild(cs, QuotedRows(i, rows, j))
    {
      if Quotes(rows[j]) {
        var built := Built(cs, i, rows[j]);
        if built.None? {
          RefusedStays(cs, i, j, n);
          return None;
        }
        instruments, starts, drifts := instruments + [built.value], starts + [rows[j].market], drifts + [rows[j].drift];
      }
    }
    part := Some((instruments, starts, drifts));
  }

  lemma {:induction false} RefusedStays(cs: seq<Curve>, i: nat, j: nat, n: nat)
    requires RootFrom(cs, None, 0).Some? && i < |cs| && j < n <= |cs[i].rows|
    requires Quotes(cs[i].rows[j]) && Built(cs, i, cs[i].rows[j]).None?
    ensures !AllBuild(cs, QuotedRows(i, cs[i].rows, n))
  {
    if j < n - 1 {
      RefusedStays(cs, i, j, n - 1);
      var before, after := QuotedRows(i, cs[i].rows, n - 1), QuotedRows(i, cs[i].rows, n);
      var r :| 0 <= r < |before| && !(before[r].curve < |cs| && Built(cs, before[r].curve, before[r].row).Some?);
      assert after[r] == before[r];
    } else {
      var after := QuotedRows(i, cs[i].rows, n);
      assert after[|after| - 1] == Placed(i, cs[i].rows[j]);
    }
  }

  lemma {:induction false} QuotedGrow(cs: seq<Curve>, m: nat, n: nat)
    requires m <= n <= |cs|
    ensures AllQuoted(cs, m) <= AllQuoted(cs, n)
  {
    if m < n {
      QuotedGrow(cs, m, n - 1);
    }
  }

  lemma {:induction false} NotAllBuild(cs: seq<Curve>, i: nat)
    requires RootFrom(cs, None, 0).Some? && i < |cs| && !AllBuild(cs, QuotedRows(i, cs[i].rows, |cs[i].rows|))
    ensures !AllBuild(cs, AllQuoted(cs, |cs|))
  {
    QuotedGrow(cs, i + 1, |cs|);
    var part := QuotedRows(i, cs[i].rows, |cs[i].rows|);
    var r :| 0 <= r < |part| && !(part[r].curve < |cs| && Built(cs, part[r].curve, part[r].row).Some?);
    assert AllQuoted(cs, |cs|)[|AllQuoted(cs, i)| + r] == part[r];
  }

  lemma AreRowsConcat(cs: seq<Curve>, p: seq<Placed>, a: seq<Instrument>, s: seq<real>, d: seq<real>,
                      q: seq<Placed>, b: seq<Instrument>, t: seq<real>, e: seq<real>)
    requires RootFrom(cs, None, 0).Some? && AreRows(cs, p, a, s, d) && AreRows(cs, q, b, t, e)
    ensures AreRows(cs, p + q, a + b, s + t, d + e)
    ensures AllBuild(cs, p) && AllBuild(cs, q) ==> AllBuild(cs, p + q)
  {
    forall r | 0 <= r < |p + q| ensures IsRow(cs, (p + q)[r], (a + b)[r], (s + t)[r], (d + e)[r]) {
      if r >= |p| {
        assert IsRow(cs, q[r - |p|], b[r - |p|], t[r - |p|], e[r - |p|]);
      }
    }
  }
}
