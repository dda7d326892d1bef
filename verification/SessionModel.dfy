/** The quote hand-off and the streaming session of api/bundle_api.cpp, as a state machine over values.

    The numerical kernels (Levenberg-Marquardt, the frozen-Newton tick, the Jacobian anchor) are arbitrary functions
    of their inputs, collected in a `Kernel`; every statement below holds for all of them. */
module SessionModel {
  import opened Wrappers

  type Vec = seq<real>

  // ---- one quote, one row, one problem --------------------------------------------------------------------

  /** A quote is four numbers: the target and its bid/offer band. */
  datatype Quote = Quote(market: real, lower: real, upper: real, decay: real)

  predicate Banded(q: Quote) {
    q.upper > q.lower
  }

  /** The quote rule: no band, or a band that contains its target with a decay in [0, 1]. */
  predicate ValidQuote(q: Quote) {
    q.upper == q.lower || (q.lower <= q.market <= q.upper && 0.0 <= q.decay <= 1.0)
  }

  /** What a row's residual looks like. A mapped row carries its own penalty map: its band numbers are never read.
      `trackable` says whether that map is one the streamer's edge walk follows. */
  datatype Shape = Plain | FxForward | Mapped(trackable: bool)

  datatype Row = Row(quote: Quote, shape: Shape)

  /** The part of the engine's own validation a requote can break. */
  predicate ValidRow(r: Row) {
    ValidQuote(r.quote) && (r.shape.Mapped? ==> !Banded(r.quote))
  }

  /** `structure` stands for everything a requote never changes: knots, schemes, roles, schedules. */
  datatype Problem = Problem(structure: int, quotes: seq<Row>, constraints: seq<Row>) {
    function Rows(): seq<Row> {
      quotes + constraints
    }

    function Markets(): Vec {
      seq(|Rows()|, i requires 0 <= i < |Rows()| => Rows()[i].quote.market)
    }

    function Quotes(): seq<Quote> {
      seq(|Rows()|, i requires 0 <= i < |Rows()| => Rows()[i].quote)
    }

    function Shapes(): seq<Shape> {
      seq(|Rows()|, i requires 0 <= i < |Rows()| => Rows()[i].shape)
    }

    predicate Valid() {
      forall i :: 0 <= i < |Rows()| ==> ValidRow(Rows()[i])
    }
  }

  predicate AnyBanded(rows: seq<Row>) {
    exists i :: 0 <= i < |rows| && Banded(rows[i].quote)
  }

  // ---- the streamer's own table of bands ------------------------------------------------------------------

  datatype Track = Untracked | General | Band(lower: real, upper: real, decay: real)

  datatype Entry = Entry(lower: real, upper: real, eligible: bool, track: Track)

  /** What the streamer reads off one row when it (re)anchors. */
  function CollectRow(r: Row): Entry {
    Entry(r.quote.lower, r.quote.upper, !r.shape.FxForward?,
          match r.shape
          case FxForward => Untracked
          case Mapped(trackable) => if trackable then General else Untracked
          case Plain =>
            if Banded(r.quote) && r.quote.decay >= 0.0
            then Band(r.quote.lower, r.quote.upper, r.quote.decay) else Untracked)
  }

  function Collect(rows: seq<Row>): (t: seq<Entry>)
    ensures |t| == |rows|
  {
    seq(|rows|, i requires 0 <= i < |rows| => CollectRow(rows[i]))
  }

  /** A market the streamer accepts: inside every band of ITS table. */
  predicate UpdateAccepts(table: seq<Entry>, q: Vec) {
    |q| == |table| &&
    forall i :: 0 <= i < |table| && table[i].upper > table[i].lower ==> table[i].lower <= q[i] <= table[i].upper
  }

  /** Would moving entry `e` to the given band change whether the row is banded, or tracked? */
  predicate MovesInPlace(e: Entry, lower: real, upper: real) {
    e.track.General? ||
    (((upper > lower && e.eligible) <==> e.track.Band?) && (upper > lower <==> e.upper > e.lower))
  }

  function MoveEntry(e: Entry, lower: real, upper: real, decay: real): Entry {
    e.(lower := lower, upper := upper, track := if e.track.Band? then Band(lower, upper, decay) else e.track)
  }

  /** Moves the leading |lower| entries in place, or refuses (None) when the set of tracked rows would change. */
  function SetBands(table: seq<Entry>, lower: Vec, upper: Vec, decay: Vec): (r: Option<seq<Entry>>)
    requires |lower| == |upper| == |decay| <= |table|
  {
    if forall i :: 0 <= i < |lower| ==> MovesInPlace(table[i], lower[i], upper[i]) then
      Some(seq(|table|, i requires 0 <= i < |table| =>
        if i < |lower| then MoveEntry(table[i], lower[i], upper[i], decay[i]) else table[i]))
    else None
  }

  // ---- the kernels ----------------------------------------------------------------------------------------

  datatype Solve = Solve(x: Vec, converged: bool, iterations: nat, rms: real)

  datatype Tick<S> = Tick(converged: bool, steps: nat, x: Vec, inner: S)

  /** The numerical kernels. `S` is the streamer's frozen operator and walk memory. `lm`: resolution, engine rows,
      seed.  `anchor`: resolution, tolerance, engine rows, table, state, market. `tick`: resolution, tolerance,
      operator, table, engine rows, state, market.  `reband`: operator, moved table. `rms`: the residual evaluated at a
      resolution, engine rows and state.  `lastRms`: the residual the tick's last step was taken from, which the
      streamer remembers. */
  datatype Kernel<!S> = Kernel(
    lm: (int, seq<Quote>, Vec) -> Solve,
    anchor: (int, real, seq<Quote>, seq<Entry>, Vec, Vec) -> S,
    tick: (int, real, S, seq<Entry>, seq<Quote>, Vec, Vec) -> Tick<S>,
    reband: (S, seq<Entry>) -> S,
    rms: (int, seq<Quote>, Vec) -> real,
    lastRms: S -> real)

  datatype Streamer<S> = Streamer(tol: real, table: seq<Entry>, current: Vec, inner: S)

  const DEFAULT_STEP_TOL := 0.000000001

  // ---- the session ----------------------------------------------------------------------------------------

  datatype Report = NotSolved | Solved(x: Vec, converged: bool, streamed: bool, iterations: nat, rms: real)

  /** What is remembered of the last tick. */
  datatype TickReport = TickReport(converged: bool, steps: nat)

  /** `resolution` names the state of the resolved fixings, which the kernels read and a rebind does not.
      `client` counts the client's own rows: its quotes, then its constraints. The rows after them are the regions'
      smoothing rows, appended once at construction. */
  datatype Session<S> = Session(
    prob: Problem, client: nat, resolution: int, x: Vec, report: Report,
    engine: Option<seq<Quote>>, stream: Option<Streamer<S>>,
    armed: bool, stepTol: real, bandsChanged: bool, hasBand: bool, lastTick: TickReport)

  datatype Reason =
    | WrongLength | OutOfBand | RowOutOfRange | BandOnMappedRow | StructureDiffers | NotStreaming | BadProblem
    | StreamerRefused

  datatype Outcome = Ok | Refused(reason: Reason)

  /** Every session call returns the new state and whether it threw. */
  datatype Next<S> = Next(session: Session<S>, outcome: Outcome)

  // ---- construction ---------------------------------------------------------------------------------------

  /** The smoothing rows carry target 0 and no band. */
  const SMOOTHING_ROW := Row(Quote(0.0, 0.0, 0.0, 1.0), Plain)

  function WithSmoothing(p: Problem, n: nat): Problem {
    p.(constraints := p.constraints + seq(n, i => SMOOTHING_ROW))
  }

  function Construct<S>(p: Problem, smoothing: nat, resolution: int, x0: Vec): Option<Session<S>> {
    if !p.Valid() then None
    else Some(Session(WithSmoothing(p, smoothing), |p.Rows()|, resolution, x0, NotSolved, None, None,
                      false, 0.0, false, AnyBanded(p.Rows()), TickReport(true, 0)))
  }

  // ---- the engine -----------------------------------------------------------------------------------------

  /** Builds the engine on first use; the engine's constructor validates the whole problem. */
  function EnsureEngine<S>(s: Session<S>): Next<S> {
    if s.engine.Some? then Next(s, Ok)
    else if !s.prob.Valid() then Next(s, Refused(BadProblem))
    else Next(s.(engine := Some(s.prob.Quotes())), Ok)
  }

  function EngineMarkets(e: seq<Quote>, m: Vec): (r: seq<Quote>)
    ensures |r| == |e|
  {
    seq(|e|, i requires 0 <= i < |e| => if i < |m| then e[i].(market := m[i]) else e[i])
  }

  function RowMarkets(rows: seq<Row>, m: Vec): (r: seq<Row>)
    requires |m| == |rows|
    ensures |r| == |rows|
  {
    seq(|rows|, i requires 0 <= i < |rows| => rows[i].(quote := rows[i].quote.(market := m[i])))
  }

  /** Lands a target vector on the session's quotes and, row by row, on the engine. */
  function CommitTargets<S>(s: Session<S>, m: Vec): Session<S>
    requires |m| == |s.prob.quotes|
  {
    s.(prob := s.prob.(quotes := RowMarkets(s.prob.quotes, m)),
       engine := if s.engine.Some? then Some(EngineMarkets(s.engine.value, m)) else None)
  }

  /** A target that left its band is refused; a target on a row with no band is not looked at. */
  predicate TargetsInBand(rows: seq<Row>, m: Vec)
    requires |m| == |rows|
  {
    forall i :: 0 <= i < |rows| && Banded(rows[i].quote) ==> ValidQuote(rows[i].quote.(market := m[i]))
  }

  // ---- quote verbs ----------------------------------------------------------------------------------------

  function SetMarket<S>(s: Session<S>, m: Vec): Next<S> {
    if |m| != |s.prob.quotes| then Next(s, Refused(WrongLength))
    else if !TargetsInBand(s.prob.quotes, m) then Next(s, Refused(OutOfBand))
    else Next(CommitTargets(s, m), Ok)
  }

  function SetBand<S>(s: Session<S>, row: int, lower: real, upper: real, decay: real): Next<S>
    requires s.engine.Some? ==> |s.engine.value| == |s.prob.Rows()|
  {
    if !(0 <= row < |s.prob.quotes|) then Next(s, Refused(RowOutOfRange))
    else
      var q := s.prob.quotes[row].quote.(lower := lower, upper := upper, decay := decay);
      if !ValidQuote(q) then Next(s, Refused(OutOfBand))
      else if s.prob.quotes[row].shape.Mapped? && upper > lower then Next(s, Refused(BandOnMappedRow))
      else
        var quotes := s.prob.quotes[row := s.prob.quotes[row].(quote := q)];
        Next(s.(prob := s.prob.(quotes := quotes), hasBand := AnyBanded(quotes),
                engine := if s.engine.Some? then Some(s.engine.value[row := q]) else None,
                bandsChanged := true), Ok)
  }

  // ---- solving --------------------------------------------------------------------------------------------

  /** A bare solve. The streamer, if there is one, is left exactly where it was. */
  function Calibrate<S>(k: Kernel<S>, s: Session<S>, x0: Vec): Next<S> {
    var e := EnsureEngine(s);
    if e.outcome.Refused? then e
    else
      var r := k.lm(s.resolution, e.session.engine.value, x0);
      Next(e.session.(x := r.x, report := Solved(r.x, r.converged, false, r.iterations, r.rms)), Ok)
  }

  /** Re-anchors a live streamer at (x, q): the table is re-read and the operator re-taken. */
  function Resync<S>(k: Kernel<S>, s: Session<S>, x: Vec, q: Vec): Session<S>
    requires s.stream.Some? && s.engine.Some?
  {
    var st := s.stream.value;
    var table := Collect(s.prob.Rows());
    s.(stream := Some(Streamer(st.tol, table, x, k.anchor(s.resolution, st.tol, s.engine.value, table, x, q))))
  }

  function StartStreaming<S>(k: Kernel<S>, s: Session<S>, stepTol: real): Next<S> {
    var e := EnsureEngine(s);
    if e.outcome.Refused? then e
    else
      var tol := if stepTol > 0.0 then stepTol else DEFAULT_STEP_TOL;
      var table := Collect(s.prob.Rows());
      var inner := k.anchor(s.resolution, tol, e.session.engine.value, table, s.x, s.prob.Markets());
      Next(e.session.(stream := Some(Streamer(tol, table, s.x, inner)),
                      stepTol := stepTol, armed := true, bandsChanged := false), Ok)
  }

  /** One tick of a live streamer. A tick that does not converge commits nothing. */
  function TickOnce<S>(k: Kernel<S>, s: Session<S>, q: Vec): Next<S>
    requires s.stream.Some? && s.engine.Some?
  {
    var st := s.stream.value;
    if !UpdateAccepts(st.table, q) then Next(s, Refused(StreamerRefused))
    else
      var t := k.tick(s.resolution, st.tol, st.inner, st.table, s.engine.value, st.current, q);
      Next(s.(stream := Some(st.(current := if t.converged then t.x else st.current, inner := t.inner)),
              lastTick := TickReport(t.converged, t.steps)), Ok)
  }

  /** The report of a converged tick; each verb brings its own residual. */
  function StampStreamed<S>(s: Session<S>, rms: real): Session<S>
    requires s.stream.Some?
  {
    var current := s.stream.value.current;
    s.(x := current, report := Solved(current, true, true, s.lastTick.steps, rms))
  }

  /** The end of a warm solve: a converged tick is reported with its residual re-evaluated; a failed one falls back to a
      solve warm from x, after which the streamer is re-anchored there. */
  function FinishWarm<S>(k: Kernel<S>, s: Session<S>, q: Vec): Next<S>
    requires s.stream.Some? && s.engine.Some?
  {
    if s.lastTick.converged then
      var t := s.(x := s.stream.value.current);
      Next(StampStreamed(t, k.rms(t.resolution, t.engine.value, t.x)), Ok)
    else
      var c := Calibrate(k, s, s.x);
      if c.outcome.Refused? then c else Next(Resync(k, c.session, c.session.x, q), Ok)
  }

  /** The end of a streamed update: x is the streamer's curve whatever the tick did; a converged tick is reported with
      the residual the streamer remembers; a failed one falls back from x, re-anchors, and takes x off the solve's
      report. */
  function FinishStream<S>(k: Kernel<S>, s: Session<S>, q: Vec): Next<S>
    requires s.stream.Some? && s.engine.Some?
  {
    var t := s.(x := s.stream.value.current);
    if t.lastTick.converged then Next(StampStreamed(t, k.lastRms(t.stream.value.inner)), Ok)
    else
      var c := Calibrate(k, t, t.x);
      if c.outcome.Refused? then c
      else
        var r := Resync(k, c.session, c.session.x, q);
        Next(r.(x := r.report.x), Ok)
  }

  /** A band edit since the last anchor re-anchors the live streamer before its next tick. */
  function Refreshed<S>(k: Kernel<S>, s: Session<S>, q: Vec): Session<S>
    requires s.stream.Some? && s.engine.Some?
  {
    if s.bandsChanged then Resync(k, s, s.x, q).(bandsChanged := false) else s
  }

  /** The warm re-solve behind resolve, recalibrate and rebind. */
  function WarmSolve<S>(k: Kernel<S>, s: Session<S>): Next<S>
    requires s.stream.Some? ==> s.engine.Some?
  {
    var q := s.prob.Markets();
    var a := if s.stream.None? then StartStreaming(k, s, 0.0) else Next(Refreshed(k, s, q), Ok);
    if a.outcome.Refused? then a
    else
      var t := TickOnce(k, a.session, q);
      if t.outcome.Refused? then t else FinishWarm(k, t.session, q)
  }

  function Recalibrate<S>(k: Kernel<S>, s: Session<S>, m: Vec): Next<S>
    requires s.stream.Some? ==> s.engine.Some?
  {
    if |m| != |s.prob.quotes| then Next(s, Refused(WrongLength))
    else
      var a := SetMarket(s, m);
      if a.outcome.Refused? then a else WarmSolve(k, a.session)
  }

  /** One streamed tick to an accepted market: the quotes are committed before the tick, converged or not. */
  function UpdateLive<S>(k: Kernel<S>, s: Session<S>, m: Vec): Next<S>
    requires s.stream.Some? && s.engine.Some? && |m| == |s.prob.quotes|
  {
    var b := CommitTargets(s, m);
    var q := b.prob.Markets();
    var t := TickOnce(k, Refreshed(k, b, q), q);
    if t.outcome.Refused? then t
    else FinishStream(k, t.session, q)
  }

  function StreamUpdate<S>(k: Kernel<S>, s: Session<S>, m: Vec): Next<S>
    requires s.stream.Some? ==> s.engine.Some?
  {
    var a :=
      if s.stream.Some? then Next(s, Ok)
      else if !s.armed then Next(s, Refused(NotStreaming))
      else StartStreaming(k, s, s.stepTol);
    if a.outcome.Refused? then a
    else if |m| != |s.prob.quotes| then Next(a.session, Refused(WrongLength))
    else if !TargetsInBand(s.prob.quotes, m) then Next(a.session, Refused(OutOfBand))
    else UpdateLive(k, a.session, m)
  }

  // ---- the four-number requote ----------------------------------------------------------------------------

  predicate SameLengths(n: nat, m: Vec, lower: Vec, upper: Vec, decay: Vec) {
    |m| == |lower| == |upper| == |decay| == n
  }

  predicate QuotesAccepted(rows: seq<Row>, m: Vec, lower: Vec, upper: Vec, decay: Vec)
    requires SameLengths(|rows|, m, lower, upper, decay)
  {
    forall i :: 0 <= i < |rows| ==> ValidQuote(Quote(m[i], lower[i], upper[i], decay[i]))
  }

  predicate BandsAccepted(rows: seq<Row>, lower: Vec, upper: Vec)
    requires |rows| == |lower| == |upper|
  {
    forall i :: 0 <= i < |rows| && rows[i].shape.Mapped? ==> !(upper[i] > lower[i])
  }

  function RowBands(rows: seq<Row>, lower: Vec, upper: Vec, decay: Vec): (r: seq<Row>)
    requires |rows| == |lower| == |upper| == |decay|
    ensures |r| == |rows|
  {
    seq(|rows|, i requires 0 <= i < |rows| =>
      rows[i].(quote := rows[i].quote.(lower := lower[i], upper := upper[i], decay := decay[i])))
  }

  /** The engine takes the four numbers of the rows whose band moved: the OLD target with the NEW band. */
  function EngineBands(e: seq<Quote>, before: seq<Row>, after: seq<Row>): (r: seq<Quote>)
    requires |before| == |after| <= |e|
    ensures |r| == |e|
  {
    seq(|e|, i requires 0 <= i < |e| => if i < |after| && before[i] != after[i] then after[i].quote else e[i])
  }

  function RequoteBands<S>(k: Kernel<S>, s: Session<S>, lower: Vec, upper: Vec, decay: Vec): Session<S>
    requires |s.prob.quotes| == |lower| == |upper| == |decay|
    requires s.engine.Some? ==> |s.engine.value| == |s.prob.Rows()|
    requires s.stream.Some? ==> |s.stream.value.table| == |s.prob.Rows()|
  {
    var rows := RowBands(s.prob.quotes, lower, upper, decay);
    if rows == s.prob.quotes then s
    else
      var a := s.(prob := s.prob.(quotes := rows), hasBand := AnyBanded(rows),
                  engine := if s.engine.Some? then Some(EngineBands(s.engine.value, s.prob.quotes, rows)) else None);
      if s.stream.None? then a
      else
        match SetBands(s.stream.value.table, lower, upper, decay)
        case None => a.(bandsChanged := true)
        case Some(table) =>
          a.(stream := Some(s.stream.value.(table := table, inner := k.reband(s.stream.value.inner, table))))
  }

  predicate Requotable(rows: seq<Row>, m: Vec, lower: Vec, upper: Vec, decay: Vec) {
    SameLengths(|rows|, m, lower, upper, decay) && QuotesAccepted(rows, m, lower, upper, decay)
    && BandsAccepted(rows, lower, upper)
  }

  function StreamRequote<S>(k: Kernel<S>, s: Session<S>, m: Vec, lower: Vec, upper: Vec, decay: Vec): Next<S>
    requires s.stream.Some? ==> s.engine.Some? && |s.stream.value.table| == |s.prob.Rows()|
    requires s.engine.Some? ==> |s.engine.value| == |s.prob.Rows()|
  {
    if !SameLengths(|s.prob.quotes|, m, lower, upper, decay) then Next(s, Refused(WrongLength))
    else if !QuotesAccepted(s.prob.quotes, m, lower, upper, decay) then Next(s, Refused(OutOfBand))
    else if !BandsAccepted(s.prob.quotes, lower, upper) then Next(s, Refused(BandOnMappedRow))
    else StreamUpdate(k, RequoteBands(k, s, lower, upper, decay), m)
  }

  // ---- rebind ---------------------------------------------------------------------------------------------

  /** The new row list: the client's rows take p's four numbers, the smoothing tail keeps its own. */
  function Rebound(rows: seq<Row>, p: seq<Row>): (r: seq<Row>)
    requires |p| <= |rows|
    ensures |r| == |rows|
  {
    seq(|rows|, i requires 0 <= i < |rows| => if i < |p| then rows[i].(quote := p[i].quote) else rows[i])
  }

  predicate BandsDiffer(rows: seq<Row>, p: seq<Row>)
    requires |p| <= |rows|
  {
    exists i :: 0 <= i < |p| && rows[i].quote.(market := p[i].quote.market) != p[i].quote
  }

  /** `client` counts the session's client rows: its own smoothing tail is not compared. */
  predicate SameStructure(prob: Problem, client: nat, p: Problem) {
    |p.quotes| == |prob.quotes| && |p.Rows()| == client <= |prob.Rows()| &&
    p.structure == prob.structure && p.Shapes() == prob.Shapes()[..client]
  }

  /** The quote half of a rebind, before its solve: the rows, the has-band flag, the pending re-anchor and the
      engine. */
  function LandRebind<S>(s: Session<S>, p: Problem): Session<S>
    requires SameStructure(s.prob, s.client, p)
  {
    var n := |s.prob.quotes|;
    var rows := Rebound(s.prob.Rows(), p.Rows());
    var changed := BandsDiffer(s.prob.Rows(), p.Rows());
    var prob := s.prob.(quotes := rows[..n], constraints := rows[n..]);
    s.(prob := prob,
       hasBand := if changed then AnyBanded(prob.quotes) else s.hasBand,
       bandsChanged := changed || s.bandsChanged,
       engine := if s.engine.Some? then Some(prob.Quotes()) else None)
  }

  predicate QuotesValid(rows: seq<Row>) {
    forall i :: 0 <= i < |rows| ==> ValidQuote(rows[i].quote)
  }

  function Rebind<S>(k: Kernel<S>, s: Session<S>, p: Problem): Next<S>
    requires s.stream.Some? ==> s.engine.Some?
  {
    if !SameStructure(s.prob, s.client, p) then Next(s, Refused(StructureDiffers))
    else if !QuotesValid(p.Rows()) then Next(s, Refused(OutOfBand))
    else WarmSolve(k, LandRebind(s, p))
  }

  // ---- fixings --------------------------------------------------------------------------------------------

  /** New fixings rewrite the resolved observations (structure, as far as the compiled engine is concerned): when any
      observation carries a schedule the engine and the streamer that borrows it are dropped. */
  function ResolveFixings<S>(s: Session<S>, scheduled: bool, resolution: int): Next<S> {
    if scheduled then Next(s.(resolution := resolution, engine := None, stream := None), Ok)
    else Next(s, Ok)
  }

  // ---- one step, one run ----------------------------------------------------------------------------------

  datatype Call =
    | CallSetMarket(m: Vec)
    | CallSetBand(row: int, lower: real, upper: real, decay: real)
    | CallCalibrate(x0: Vec)
    | CallResolve
    | CallRecalibrate(m: Vec)
    | CallRebind(p: Problem)
    | CallStartStreaming(tol: real)
    | CallStreamUpdate(m: Vec)
    | CallStreamRequote(m: Vec, lowers: Vec, uppers: Vec, decays: Vec)
    | CallResolveFixings(scheduled: bool, resolution: int)

  /** What holds between calls whatever the market: sizes agree, the engine copies the problem's rows, the streamer
      borrows a live engine, and a table that no band edit has outdated is the one a re-anchor would read. */
  ghost predicate Coherent<S>(s: Session<S>) {
    && |s.prob.quotes| <= s.client <= |s.prob.Rows()|
    && (s.engine.Some? ==> s.engine.value == s.prob.Quotes())
    && (s.stream.Some? ==> s.engine.Some? && s.armed && |s.stream.value.table| == |s.prob.Rows()|)
    && (s.stream.Some? && !s.bandsChanged ==> s.stream.value.table == Collect(s.prob.Rows()))
  }

  function Step<S>(k: Kernel<S>, s: Session<S>, c: Call): Next<S>
    requires Coherent(s)
  {
    match c
    case CallSetMarket(m) => SetMarket(s, m)
    case CallSetBand(row, lo, up, dc) => SetBand(s, row, lo, up, dc)
    case CallCalibrate(x0) => Calibrate(k, s, x0)
    case CallResolve => WarmSolve(k, s)
    case CallRecalibrate(m) => Recalibrate(k, s, m)
    case CallRebind(p) => Rebind(k, s, p)
    case CallStartStreaming(tol) => StartStreaming(k, s, tol)
    case CallStreamUpdate(m) => StreamUpdate(k, s, m)
    case CallStreamRequote(m, lo, up, dc) => StreamRequote(k, s, m, lo, up, dc)
    case CallResolveFixings(scheduled, resolution) => ResolveFixings(s, scheduled, resolution)
  }
}
