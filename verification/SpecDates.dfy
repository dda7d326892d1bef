/** Pass 0 of the spec compiler (api/compile.cpp, compile_spec and resolve_instrument): every row's window tokens
    resolved once, a quoted meeting's start overridden by the chain. */
module SpecDates {
  import opened Wrappers
  import KnotLayout
  import MeetingChain
  import CurveOrder
  import opened SpecModel

  /** A curve's date conventions: resolution with rolling, resolution as entered, and the value date. */
  datatype Dates = Dates(rolled: MeetingChain.Calendar, entered: string -> Option<int>, valueDate: int)

  datatype Dated = Meeting | Future | Ordinary

  /** A row before pass 0: its window still in tokens, an absent one the empty string, with the numbers that stand in
      for absent tokens; the window fields of `row` are yet to be filled in. */
  datatype DraftRow = DraftRow(row: Row, dated: Dated, start: string, end: string, spanStart: real, time: real)

  datatype Draft = Draft(row: CurveOrder.CurveRow, currency: string, regions: seq<KnotLayout.RegionRow>, dates: Dates,
                         rows: seq<DraftRow>)

  /** Curve time of a day. */
  function Years(d: Dates, day: int): real {
    (day - d.valueDate) as real / 365.0
  }

  predicate IsMeeting(r: DraftRow) {
    r.dated.Meeting? && r.row.shape.PlainRow?
  }

  /** The row as the chain reads it. */
  function ChainRow(r: DraftRow): MeetingChain.Row {
    MeetingChain.Row(r.row.key, IsMeeting(r), r.row.hasQuote, r.row.kind.Rate?, r.start, r.end)
  }

  function ChainRows(rows: seq<DraftRow>): (r: seq<MeetingChain.Row>)
    ensures |r| == |rows| && forall i :: 0 <= i < |r| ==> r[i] == ChainRow(rows[i])
  {
    seq(|rows|, i requires 0 <= i < |rows| => ChainRow(rows[i]))
  }

  /** A token's curve time; a future's tokens are not rolled. */
  function TimeOf(d: Dates, r: DraftRow, token: string): Option<real> {
    var day := if r.dated.Future? then d.entered(token) else d.rolled.resolve(token);
    if day.None? then None else Some(Years(d, day.value))
  }

  function EndTime(d: Dates, r: DraftRow): Option<real> {
    if r.end == "" then Some(r.time) else TimeOf(d, r, r.end)
  }

  /** Only a rate has a start: the chain's, its own, or the number that stands in. */
  function StartTime(d: Dates, starts: map<string, string>, r: DraftRow): Option<real> {
    if !r.row.kind.Rate? then Some(0.0) else
      var token := if r.row.key in starts then starts[r.row.key] else r.start;
      if token == "" then Some(r.spanStart) else TimeOf(d, r, token)
  }

  function Settled(d: Dates, starts: map<string, string>, r: DraftRow): Option<Row> {
    match (StartTime(d, starts, r), EndTime(d, r))
    case (Some(s), Some(e)) => Some(r.row.(start := s, end := e))
    case _ => None
  }

  /** The first `n` rows with their windows, unless a token among them is refused. */
  function SettledRows(d: Dates, starts: map<string, string>, rows: seq<DraftRow>, n: nat): (r: Option<seq<Row>>)
    requires n <= |rows|
    ensures r.Some? ==> |r.value| == n && forall i :: 0 <= i < n ==> Settled(d, starts, rows[i]) == Some(r.value[i])
  {
    if n == 0 then Some([]) else
      var before := SettledRows(d, starts, rows, n - 1);
      if before.None? then None else
        var last := Settled(d, starts, rows[n - 1]);
        if last.None? then None else Some(before.value + [last.value])
  }

  function StartsOf(c: Draft): map<string, string> {
    MeetingChain.ChainedStarts(c.dates.rolled, ChainRows(c.rows))
  }

  function SettledCurve(c: Draft): (r: Option<Curve>)
    ensures r.Some? ==> r.value.row == c.row && |r.value.rows| == |c.rows|
  {
    match SettledRows(c.dates, StartsOf(c), c.rows, |c.rows|)
    case None => None
    case Some(rows) => Some(Curve(c.row, c.currency, c.regions, rows))
  }

  /** No curve's tokens are refused. */
  ghost predicate AllSettle(cs: seq<Draft>) {
    forall i :: 0 <= i < |cs| ==> SettledCurve(cs[i]).Some?
  }

  ghost predicate AreSettled(cs: seq<Draft>, curves: seq<Curve>) {
    |curves| == |cs| && forall i :: 0 <= i < |cs| ==> SettledCurve(cs[i]) == Some(curves[i])
  }

  // ---- a settled row ----

  /** Time t is the day the token stands for, in years of 365 days after the value date: a future's token is read as
      entered, any other rolled to a business day. */
  ghost predicate AtToken(d: Dates, r: DraftRow, token: string, t: real) {
    exists day :: (if r.dated.Future? then d.entered(token) else d.rolled.resolve(token)) == Some(day)
                  && 365.0 * t == (day - d.valueDate) as real
  }

  /** A row is settled exactly when its tokens resolve, and only its window is filled in: its end from its end token, or
      the number that stands in for an absent one; a rate's start from the chain's token, or its own, or the number that
      stands in for both; any other row's start is zero. */
  lemma SettledIff(d: Dates, starts: map<string, string>, r: DraftRow, row: Row)
    ensures Settled(d, starts, r) == Some(row) <==>
            && row == r.row.(start := row.start, end := row.end)
            && (if r.end == "" then row.end == r.time else AtToken(d, r, r.end, row.end))
            && if r.row.kind.Rate? then
                 var token := if r.row.key in starts then starts[r.row.key] else r.start;
                 if token == "" then row.start == r.spanStart else AtToken(d, r, token, row.start)
               else row.start == 0.0
  {
    forall token, t ensures TimeOf(d, r, token) == Some(t) <==> AtToken(d, r, token, t) {
      TimeIs(d, r, token, t);
    }
  }

  lemma TimeIs(d: Dates, r: DraftRow, token: string, t: real)
    ensures TimeOf(d, r, token) == Some(t) <==> AtToken(d, r, token, t)
  {
    forall day ensures Years(d, day) == t <==> 365.0 * t == (day - d.valueDate) as real {
    }
  }

  /** The chain holds exactly the quoted meetings whose end resolves, each with that end, in order of it. */
  lemma ChainHolds(c: Draft)
    ensures forall k :: 0 <= k < |Chain(c)| ==> c.dates.rolled.resolve(Chain(c)[k].row.end) == Some(Chain(c)[k].end)
    ensures forall k, l :: 0 <= k < l < |Chain(c)| ==> Chain(c)[k].end <= Chain(c)[l].end
    ensures forall j :: 0 <= j < |c.rows| ==>
      var r := c.rows[j];
      InChain(c, r) <==> r.dated.Meeting? && r.row.shape.PlainRow? && r.row.hasQuote && r.end != ""
                         && c.dates.rolled.resolve(r.end).Some?
  {
    var cal, rows := c.dates.rolled, ChainRows(c.rows);
    MeetingChain.InOrderIs(cal, rows);
    forall j | 0 <= j < |c.rows| ensures InChain(c, c.rows[j]) <==> MeetingChain.Chains(cal, rows[j]) {
      if MeetingChain.Chains(cal, rows[j]) {
        var q := MeetingChain.Quoted(cal.resolve(rows[j].end).value, rows[j]);
        IsQuoted(cal, rows, |rows|, j);
        assert q in multiset(MeetingChain.QuotedIn(cal, rows, |rows|));
        assert q in multiset(Chain(c));
        var k :| 0 <= k < |Chain(c)| && Chain(c)[k] == q;
      }
    }
  }

  ghost predicate InChain(c: Draft, r: DraftRow) {
    exists k :: 0 <= k < |Chain(c)| && Chain(c)[k].row == ChainRow(r)
  }

  lemma {:induction false} IsQuoted(cal: MeetingChain.Calendar, rows: seq<MeetingChain.Row>, n: nat, j: nat)
    requires j < n <= |rows| && MeetingChain.Chains(cal, rows[j])
    ensures MeetingChain.Quoted(cal.resolve(rows[j].end).value, rows[j]) in MeetingChain.QuotedIn(cal, rows, n)
  {
    if j < n - 1 {
      IsQuoted(cal, rows, n - 1, j);
    }
  }

  // ---- a quoted meeting's window ----

  function Chain(c: Draft): seq<MeetingChain.Quoted> {
    MeetingChain.InOrder(c.dates.rolled, ChainRows(c.rows))
  }

  /** Its start and end, in curve time: from the adjusted end of the meeting before it, the first from spot. */
  function MeetingWindow(c: Draft, i: nat): (real, real)
    requires i < |Chain(c)|
  {
    var start := if i == 0 then c.dates.rolled.spot else c.dates.rolled.adjust(Chain(c)[i - 1].end);
    (Years(c.dates, start), Years(c.dates, Chain(c)[i].end))
  }

  /** A meeting settles on the window its chain gives it. */
  lemma WindowSettles(c: Draft, r: DraftRow, row: Row, span: MeetingChain.Span)
    requires IsMeeting(r) && r.row.kind.Rate? && r.end != ""
    requires MeetingChain.Window(c.dates.rolled, StartsOf(c), ChainRow(r)) == Some(span)
    requires Settled(c.dates, StartsOf(c), r) == Some(row)
    ensures row.start == Years(c.dates, span.start) && row.end == Years(c.dates, span.end)
  {
  }

  lemma ChainedRow(c: Draft, i: nat) returns (j: nat)
    requires i < |Chain(c)|
    ensures j < |c.rows| && ChainRow(c.rows[j]) == Chain(c)[i].row
  {
    var cal, rows, q := c.dates.rolled, ChainRows(c.rows), Chain(c)[i];
    MeetingChain.InOrderIs(cal, rows);
    assert q in multiset(Chain(c));
    MeetingChain.QuotedAreRows(cal, rows, |rows|, q);
    j :| 0 <= j < |rows| && rows[j] == q.row;
  }

  /** Pass 0 gives the row of a quoted meeting the window the chain says. */
  lemma {:induction false} MeetingSettles(c: Draft, i: nat) returns (j: nat)
    requires MeetingChain.Lawful(c.dates.rolled) && MeetingChain.RateMeetings(c.dates.rolled, ChainRows(c.rows))
    requires i < |Chain(c)| && SettledCurve(c).Some?
    ensures j < |c.rows| && ChainRow(c.rows[j]) == Chain(c)[i].row
    ensures var row := SettledCurve(c).value.rows[j];
            row.key == Chain(c)[i].row.key && row.shape.PlainRow? && (row.start, row.end) == MeetingWindow(c, i)
  {
    var cal, rows := c.dates.rolled, ChainRows(c.rows);
    MeetingChain.InOrderIs(cal, rows);
    MeetingChain.SpansChain(cal, rows, i);
    j := ChainedRow(c, i);
    assert Settled(c.dates, StartsOf(c), c.rows[j]).Some?;
    WindowSettles(c, c.rows[j], SettledCurve(c).value.rows[j], MeetingChain.SpanOf(cal, rows, i).value);
  }

  // ---- the program ----

  method SettleRow(d: Dates, starts: map<string, string>, r: DraftRow) returns (row: Option<Row>)
    ensures row == Settled(d, starts, r)
  {
    var end := r.time;
    if r.end != "" {
      var e := TimeOf(d, r, r.end);
      if e.None? {
        return None;
      }
      end := e.value;
    }
    var start := 0.0;
    if r.row.kind.Rate? {
      var token := if r.row.key in starts then starts[r.row.key] else r.start;
      if token != "" {
        var s := TimeOf(d, r, token);
        if s.None? {
          return None;
        }
        start := s.value;
      } else {
        start := r.spanStart;
      }
    }
    row := Some(r.row.(start := start, end := end));
  }

  method Settle(c: Draft) returns (r: Option<Curve>)
    ensures r == SettledCurve(c)
  {
    var starts := MeetingChain.ChainMeetings(c.dates.rolled, ChainRows(c.rows));
    var rows: seq<Row> := [];
    var n := |c.rows|;
    for j := 0 to n
      invariant SettledRows(c.dates, starts, c.rows, j) == Some(rows)
    {
      var row := SettleRow(c.dates, starts, c.rows[j]);
      if row.None? {
        RefusedRowStays(c.dates, starts, c.rows, j + 1, n);
        return None;
      }
      rows := rows + [row.value];
    }
    r := Some(Curve(c.row, c.currency, c.regions, rows));
  }

  lemma {:induction false} RefusedRowStays(d: Dates, starts: map<string, string>, rows: seq<DraftRow>, m: nat, n: nat)
    requires m <= n <= |rows| && SettledRows(d, starts, rows, m).None?
    ensures SettledRows(d, starts, rows, n).None?
  {
    if m < n {
      RefusedRowStays(d, starts, rows, m, n - 1);
    }
  }

  method SettleAll(cs: seq<Draft>) returns (r: Option<seq<Curve>>)
    ensures r.Some? <==> AllSettle(cs)
    ensures r.Some? ==> AreSettled(cs, r.value)
  {
    var done: seq<Curve> := [];
    var n := |cs|;
    for i := 0 to n
      invariant |done| == i && forall j :: 0 <= j < i ==> SettledCurve(cs[j]) == Some(done[j])
    {
      var c := Settle(cs[i]);
      if c.None? {
        return None;
      }
      done := done + [c.value];
    }
    r := Some(done);
  }
}
