/** Quoted meetings chained into consecutive spans (api/compile.cpp, chained_meeting_starts and resolve_instrument). */
module MeetingChain {
  import opened Wrappers

  /** An instrument row as far as its window is concerned; an absent token is the empty string. */
  datatype Row = Row(key: string, meeting: bool, quoted: bool, rate: bool, start: string, end: string)

  /** Date resolution on one curve's conventions: a token to a business-day-adjusted date (none: refused), a date's ISO
      text, the date the text stands for once adjusted again, and spot. */
  datatype Calendar = Calendar(resolve: string -> Option<int>, iso: int -> string, adjust: int -> int, spot: int)

  const SPOT_TOKEN := "0d"

  /** ISO text resolves to that date adjusted, and is never the spot token; the spot token resolves to spot. */
  ghost predicate Lawful(cal: Calendar) {
    && cal.resolve(SPOT_TOKEN) == Some(cal.spot)
    && forall d :: cal.resolve(cal.iso(d)) == Some(cal.adjust(d)) && cal.iso(d) != ""
  }

  /** A quoted meeting with its resolved end. */
  datatype Quoted = Quoted(end: int, row: Row)

  predicate Chains(cal: Calendar, row: Row) {
    row.meeting && row.quoted && row.end != "" && cal.resolve(row.end).Some?
  }

  /** The quoted meetings among the first `n` rows; an unresolvable one is skipped. */
  function QuotedIn(cal: Calendar, rows: seq<Row>, n: nat): seq<Quoted>
    requires n <= |rows|
  {
    if n == 0 then []
    else if Chains(cal, rows[n - 1]) then
      QuotedIn(cal, rows, n - 1) + [Quoted(cal.resolve(rows[n - 1].end).value, rows[n - 1])]
    else QuotedIn(cal, rows, n - 1)
  }

  /** Into ascending order of end. */
  function InsertByEnd(q: Quoted, qs: seq<Quoted>): seq<Quoted> {
    if qs == [] || q.end < qs[0].end then [q] + qs else [qs[0]] + InsertByEnd(q, qs[1..])
  }

  function SortByEnd(qs: seq<Quoted>, n: nat): seq<Quoted>
    requires n <= |qs|
  {
    if n == 0 then [] else InsertByEnd(qs[n - 1], SortByEnd(qs, n - 1))
  }

  ghost predicate Ascending(qs: seq<Quoted>) {
    forall i, j :: 0 <= i < j < |qs| ==> qs[i].end <= qs[j].end
  }

  lemma Counted(q: Quoted, qs: seq<Quoted>)
    ensures multiset([q] + qs) == multiset{q} + multiset(qs)
  {
  }

  lemma {:induction false} InsertsOne(q: Quoted, qs: seq<Quoted>)
    ensures multiset(InsertByEnd(q, qs)) == multiset(qs) + multiset{q}
  {
    if qs == [] || q.end < qs[0].end {
      Counted(q, qs);
    } else {
      InsertsOne(q, qs[1..]);
      assert [qs[0]] + qs[1..] == qs;
      Counted(qs[0], qs[1..]);
      Counted(qs[0], InsertByEnd(q, qs[1..]));
    }
  }

  lemma InsertHas(q: Quoted, qs: seq<Quoted>, x: Quoted)
    requires x in InsertByEnd(q, qs)
    ensures x == q || x in qs
  {
    InsertsOne(q, qs);
    assert x in multiset(InsertByEnd(q, qs));
  }

  lemma {:induction false} InsertsByEnd(q: Quoted, qs: seq<Quoted>)
    requires Ascending(qs)
    ensures Ascending(InsertByEnd(q, qs))
  {
    if qs != [] && q.end >= qs[0].end {
      var rest := InsertByEnd(q, qs[1..]);
      InsertsByEnd(q, qs[1..]);
      forall i | 0 <= i < |rest| ensures qs[0].end <= rest[i].end {
        InsertHas(q, qs[1..], rest[i]);
      }
    }
  }

  lemma {:induction false} SortsByEnd(qs: seq<Quoted>, n: nat)
    requires n <= |qs|
    ensures Ascending(SortByEnd(qs, n)) && multiset(SortByEnd(qs, n)) == multiset(qs[..n])
  {
    if n > 0 {
      SortsByEnd(qs, n - 1);
      InsertsByEnd(qs[n - 1], SortByEnd(qs, n - 1));
      InsertsOne(qs[n - 1], SortByEnd(qs, n - 1));
      OneMoreOf(qs, n);
    }
  }

  lemma OneMoreOf(qs: seq<Quoted>, n: nat)
    requires 0 < n <= |qs|
    ensures multiset(qs[..n]) == multiset(qs[..n - 1]) + multiset{qs[n - 1]}
  {
    assert qs[..n] == qs[..n - 1] + [qs[n - 1]];
  }

  /** The quoted meetings in order of end. */
  function InOrder(cal: Calendar, rows: seq<Row>): seq<Quoted> {
    var qs := QuotedIn(cal, rows, |rows|);
    SortByEnd(qs, |qs|)
  }

  /** Start tokens by row key: the spot token for the first, otherwise the previous end's ISO date. */
  function Starts(cal: Calendar, qs: seq<Quoted>, n: nat): map<string, string>
    requires n <= |qs|
  {
    if n == 0 then map[]
    else Starts(cal, qs, n - 1)[qs[n - 1].row.key := if n == 1 then SPOT_TOKEN else cal.iso(qs[n - 2].end)]
  }

  function ChainedStarts(cal: Calendar, rows: seq<Row>): map<string, string> {
    Starts(cal, InOrder(cal, rows), |InOrder(cal, rows)|)
  }

  datatype Span = Span(start: int, end: int)

  /** A row's window: its own end, and for a rate its overridden or own start. */
  function Window(cal: Calendar, starts: map<string, string>, row: Row): Option<Span>
    requires row.end != "" && row.rate
  {
    var token := if row.key in starts then starts[row.key] else row.start;
    if token == "" then None else
      match (cal.resolve(token), cal.resolve(row.end))
      case (Some(s), Some(e)) => Some(Span(s, e))
      case _ => None
  }

  // ---- what the chain gives ----

  ghost predicate DistinctMeetings(qs: seq<Quoted>) {
    forall i, j :: 0 <= i < j < |qs| ==> qs[i].row.key != qs[j].row.key && qs[i].end != qs[j].end
  }

  lemma {:induction false} StartsAt(cal: Calendar, qs: seq<Quoted>, n: nat, i: nat)
    requires DistinctMeetings(qs) && i < n <= |qs|
    ensures qs[i].row.key in Starts(cal, qs, n)
    ensures Starts(cal, qs, n)[qs[i].row.key] == if i == 0 then SPOT_TOKEN else cal.iso(qs[i - 1].end)
  {
    if i < n - 1 {
      StartsAt(cal, qs, n - 1, i);
    }
  }

  lemma {:induction false} QuotedAreRows(cal: Calendar, rows: seq<Row>, n: nat, q: Quoted)
    requires n <= |rows| && q in QuotedIn(cal, rows, n)
    ensures q.row in rows && Chains(cal, q.row) && cal.resolve(q.row.end) == Some(q.end)
  {
    if q in QuotedIn(cal, rows, n - 1) {
      QuotedAreRows(cal, rows, n - 1, q);
    }
  }

  lemma InOrderIs(cal: Calendar, rows: seq<Row>)
    ensures Ascending(InOrder(cal, rows))
    ensures multiset(InOrder(cal, rows)) == multiset(QuotedIn(cal, rows, |rows|))
    ensures forall q :: q in InOrder(cal, rows) ==> Chains(cal, q.row) && cal.resolve(q.row.end) == Some(q.end)
  {
    var qs := QuotedIn(cal, rows, |rows|);
    SortsByEnd(qs, |qs|);
    assert qs[..|qs|] == qs;
    forall q | q in InOrder(cal, rows) ensures Chains(cal, q.row) && cal.resolve(q.row.end) == Some(q.end) {
      assert q in multiset(InOrder(cal, rows));
      QuotedAreRows(cal, rows, |rows|, q);
    }
  }

  /** The span of the i-th quoted meeting in order of end. */
  function SpanOf(cal: Calendar, rows: seq<Row>, i: nat): Option<Span>
    requires i < |InOrder(cal, rows)| && InOrder(cal, rows)[i].row.rate && InOrder(cal, rows)[i].row.end != ""
  {
    Window(cal, ChainedStarts(cal, rows), InOrder(cal, rows)[i].row)
  }

  ghost predicate RateMeetings(cal: Calendar, rows: seq<Row>) {
    && DistinctMeetings(InOrder(cal, rows))
    && forall q :: q in InOrder(cal, rows) ==> q.row.rate && q.row.end != ""
  }

  /** Each quoted meeting's span runs from the adjusted end of the one before it, the first from spot, to its own
      end. */
  lemma SpansChain(cal: Calendar, rows: seq<Row>, i: nat)
    requires Lawful(cal) && RateMeetings(cal, rows) && i < |InOrder(cal, rows)|
    ensures var qs := InOrder(cal, rows);
            SpanOf(cal, rows, i) == Some(Span(if i == 0 then cal.spot else cal.adjust(qs[i - 1].end), qs[i].end))
  {
    var qs := InOrder(cal, rows);
    InOrderIs(cal, rows);
    assert qs[i] in qs;
    StartsAt(cal, qs, |qs|, i);
  }

  /** No gap and no overlap between consecutive spans, in strictly increasing order of end. */
  ghost predicate Tiles(cal: Calendar, rows: seq<Row>)
    requires RateMeetings(cal, rows)
  {
    forall i :: 0 < i < |InOrder(cal, rows)| ==> Abuts(cal, rows, i)
  }

  ghost predicate Abuts(cal: Calendar, rows: seq<Row>, i: nat)
    requires RateMeetings(cal, rows) && 0 < i < |InOrder(cal, rows)|
  {
    && InOrder(cal, rows)[i - 1].end < InOrder(cal, rows)[i].end
    && SpanOf(cal, rows, i).Some? && SpanOf(cal, rows, i - 1).Some?
    && SpanOf(cal, rows, i).value.start == SpanOf(cal, rows, i - 1).value.end
  }

  /** The spans tile exactly when no quoted end but the last moves when adjusted a second time: the start is read back
      from the previous end's ISO date, and only a contract code resolves to an unadjusted date. */
  lemma TilesIff(cal: Calendar, rows: seq<Row>)
    requires Lawful(cal) && RateMeetings(cal, rows)
    ensures Tiles(cal, rows) <==>
            forall i :: 0 <= i < |InOrder(cal, rows)| - 1 ==>
              cal.adjust(InOrder(cal, rows)[i].end) == InOrder(cal, rows)[i].end
  {
    var qs := InOrder(cal, rows);
    InOrderIs(cal, rows);
    forall i | 0 < i < |qs| ensures Abuts(cal, rows, i) <==> cal.adjust(qs[i - 1].end) == qs[i - 1].end {
      SpansChain(cal, rows, i);
      SpansChain(cal, rows, i - 1);
    }
    if Tiles(cal, rows) {
      forall i | 0 <= i < |qs| - 1 ensures cal.adjust(qs[i].end) == qs[i].end {
        assert Abuts(cal, rows, i + 1);
      }
    }
  }

  // ---- a chain that does not tile ----

  /** A day as text: a sign and a stroke per day. */
  function DayText(d: int): string {
    if d >= 0 then "+" + seq(d, i => '|') else "-" + seq(-d, i => '|')
  }

  function TextDay(s: string): int {
    if s == "" then 0 else if s[0] == '+' then |s| - 1 else 1 - |s|
  }

  /** Following, with day 10 a holiday. */
  function Rolled(d: int): int {
    if d == 10 then 11 else d
  }

  /** The contract code names day 10 as it is; a day's text is rolled. */
  function CodeOrDay(s: string): Option<int> {
    if s == SPOT_TOKEN then Some(0) else if s == "M26" then Some(10) else Some(Rolled(TextDay(s)))
  }

  function Holiday(): Calendar {
    Calendar(s => CodeOrDay(s), d => DayText(d), d => Rolled(d), 0)
  }

  const ON_CODE := Row("a", true, true, true, "", "M26")
  const NEXT := Row("b", true, true, true, "", DayText(20))

  lemma DayReadsBack(d: int)
    ensures DayText(d) != "" && DayText(d) != SPOT_TOKEN && DayText(d) != "M26" && TextDay(DayText(d)) == d
  {
    assert DayText(d)[0] in "+-";
  }

  lemma HolidayIsLawful()
    ensures Lawful(Holiday())
  {
    forall d ensures Holiday().resolve(Holiday().iso(d)) == Some(Holiday().adjust(d)) && Holiday().iso(d) != "" {
      DayReadsBack(d);
    }
  }

  lemma TwoSorted(p: Quoted, q: Quoted)
    requires p.end < q.end
    ensures SortByEnd([p, q], 2) == [p, q]
  {
    assert SortByEnd([p, q], 1) == [p];
    assert InsertByEnd(q, [p]) == [p] + InsertByEnd(q, [p][1..]);
  }

  lemma HolidayChain()
    ensures InOrder(Holiday(), [ON_CODE, NEXT]) == [Quoted(10, ON_CODE), Quoted(20, NEXT)]
  {
    var cal, rows := Holiday(), [ON_CODE, NEXT];
    DayReadsBack(20);
    assert cal.resolve(NEXT.end) == Some(20);
    assert QuotedIn(cal, rows, 0) == [];
    assert QuotedIn(cal, rows, 1) == [Quoted(10, ON_CODE)];
    assert QuotedIn(cal, rows, 2) == [Quoted(10, ON_CODE), Quoted(20, NEXT)];
    TwoSorted(Quoted(10, ON_CODE), Quoted(20, NEXT));
  }

  /** A holiday on a contract date breaks the chain: on this lawful calendar the meeting on the contract code ends on
      day 10, and the next one starts on day 11. */
  lemma HolidayBreaksTheChain()
    ensures var cal, rows := Holiday(), [ON_CODE, NEXT];
            && Lawful(cal) && RateMeetings(cal, rows) && |InOrder(cal, rows)| == 2 && !Tiles(cal, rows)
            && SpanOf(cal, rows, 0) == Some(Span(0, 10)) && SpanOf(cal, rows, 1) == Some(Span(11, 20))
  {
    var cal, rows := Holiday(), [ON_CODE, NEXT];
    HolidayIsLawful();
    HolidayChain();
    SpansChain(cal, rows, 0);
    SpansChain(cal, rows, 1);
    assert !Abuts(cal, rows, 1);
  }

  function TotalLength(cal: Calendar, rows: seq<Row>, n: nat): int
    requires RateMeetings(cal, rows) && n <= |InOrder(cal, rows)|
  {
    if n == 0 then 0 else
      TotalLength(cal, rows, n - 1) +
      match SpanOf(cal, rows, n - 1)
      case None => 0
      case Some(s) => s.end - s.start
  }

  /** Tiling spans add up to the last end less the first start. */
  lemma {:induction false} LengthsAddUp(cal: Calendar, rows: seq<Row>, n: nat)
    requires Lawful(cal) && RateMeetings(cal, rows) && Tiles(cal, rows) && 0 < n <= |InOrder(cal, rows)|
    ensures TotalLength(cal, rows, n) == InOrder(cal, rows)[n - 1].end - cal.spot
  {
    SpansChain(cal, rows, n - 1);
    if n > 1 {
      LengthsAddUp(cal, rows, n - 1);
      assert Abuts(cal, rows, n - 1);
      SpansChain(cal, rows, n - 2);
    }
  }

  // ---- the program ----

  /** Chains a curve's quoted meetings: collect, sort by end, hand each the previous one's end. */
  method ChainMeetings(cal: Calendar, rows: seq<Row>) returns (starts: map<string, string>)
    ensures starts == ChainedStarts(cal, rows)
  {
    var quoted: seq<Quoted> := [];
    var n := |rows|;
    for j := 0 to n
      invariant quoted == QuotedIn(cal, rows, j)
    {
      if rows[j].meeting && rows[j].quoted && rows[j].end != "" {
        match cal.resolve(rows[j].end)
        case None =>
        case Some(end) => quoted := quoted + [Quoted(end, rows[j])];
      }
    }
    var sorted := SortByEnd(quoted, |quoted|);
    starts := map[];
    var prev := SPOT_TOKEN;
    n := |sorted|;
    for j := 0 to n
      invariant starts == Starts(cal, sorted, j)
      invariant prev == if j == 0 then SPOT_TOKEN else cal.iso(sorted[j - 1].end)
    {
      starts := starts[sorted[j].row.key := prev];
      prev := cal.iso(sorted[j].end);
    }
  }
}
