/** The session object itself: one problem, one lazily built engine holding a copy of its row data, one streamer that
    borrows the engine. Every method is proved against the state machine of `SessionModel`. */
module BundleSessions {
  import opened SessionEffects
  import opened SessionModel
  import opened SessionProofs
  import opened SessionTheorems
  import opened Wrappers

  /** The compiled engine's quote data: four numbers per row of the problem, overwritten in place. */
  class Engine {
    var rows: seq<Quote>

    constructor (p: Problem)
      ensures rows == p.Quotes()
    {
      rows := p.Quotes();
    }

    method SetMarket(row: nat, market: real)
      requires row < |rows|
      modifies this
      ensures rows == old(rows)[row := old(rows)[row].(market := market)]
    {
      rows := rows[row := rows[row].(market := market)];
    }

    method SetQuote(row: nat, q: Quote)
      requires row < |rows|
      modifies this
      ensures rows == old(rows)[row := q]
    {
      rows := rows[row := q];
    }

    /** The leading |m| rows' targets: the session's quote block. */
    method SetMarkets(m: Vec)
      requires |m| <= |rows|
      modifies this
      ensures rows == EngineMarkets(old(rows), m)
    {
      var n := |m|;
      for i := 0 to n
        invariant |rows| == |old(rows)|
        invariant forall j :: 0 <= j < |rows| ==>
          rows[j] == if j < i then old(rows)[j].(market := m[j]) else old(rows)[j]
      {
        SetMarket(i, m[i]);
      }
    }

    method SetQuotes(p: Problem)
      requires |rows| == |p.Rows()|
      modifies this
      ensures rows == p.Quotes()
    {
      var n := |rows|;
      for r := 0 to n
        invariant |rows| == n && forall i :: 0 <= i < r ==> rows[i] == p.Quotes()[i]
      {
        SetQuote(r, p.Rows()[r].quote);
      }
    }
  }

  /** The streamer: its band table, its committed curve and its frozen operator. It prices on a borrowed engine. */
  class StreamingCalibrator<S> {
    const kernel: Kernel<S>
    const engine: Engine
    const resolution: int
    const tol: real
    var table: seq<Entry>
    var current: Vec
    var inner: S

    ghost function Value(): Streamer<S>
      reads this
    {
      Streamer(tol, table, current, inner)
    }

    constructor (kernel: Kernel<S>, engine: Engine, resolution: int, tol: real, p: Problem, x: Vec, q: Vec)
      ensures this.kernel == kernel && this.engine == engine && this.resolution == resolution
      ensures Value() == Streamer(tol, Collect(p.Rows()), x,
                                  kernel.anchor(resolution, tol, engine.rows, Collect(p.Rows()), x, q))
    {
      this.kernel, this.engine, this.resolution, this.tol := kernel, engine, resolution, tol;
      table := Collect(p.Rows());
      current := x;
      inner := kernel.anchor(resolution, tol, engine.rows, Collect(p.Rows()), x, q);
    }

    method Resync(p: Problem, x: Vec, q: Vec)
      modifies this
      ensures Value() == Streamer(tol, Collect(p.Rows()), x,
                                  kernel.anchor(resolution, tol, engine.rows, Collect(p.Rows()), x, q))
    {
      table := Collect(p.Rows());
      inner := kernel.anchor(resolution, tol, engine.rows, table, x, q);
      current := x;
    }

    /** Refuses a market outside its own table before touching anything; commits only a converged tick. */
    method Update(q: Vec) returns (accepted: bool, tick: TickReport)
      modifies this
      ensures accepted <==> |q| == |old(table)| && forall i :: 0 <= i < |q| ==>
        var e := old(table)[i]; e.upper > e.lower ==> e.lower <= q[i] <= e.upper
      ensures !accepted ==> Value() == old(Value())
      ensures accepted ==>
        var t := kernel.tick(resolution, tol, old(inner), old(table), engine.rows, old(current), q);
        tick == TickReport(t.converged, t.steps) &&
        Value() == old(Value()).(current := if t.converged then t.x else old(current), inner := t.inner)
    {
      accepted, tick := |q| == |table|, TickReport(false, 0);
      if accepted {
        var i := 0;
        while i < |table| && accepted
          invariant 0 <= i <= |table|
          invariant accepted <==>
            forall j :: 0 <= j < i && table[j].upper > table[j].lower ==> table[j].lower <= q[j] <= table[j].upper
        {
          accepted := !(table[i].upper > table[i].lower) || table[i].lower <= q[i] <= table[i].upper;
          i := i + 1;
        }
      }
      if accepted {
        var t := kernel.tick(resolution, tol, inner, table, engine.rows, current, q);
        tick := TickReport(t.converged, t.steps);
        inner := t.inner;
        if t.converged {
          current := t.x;
        }
      }
    }

    /** Moves the leading rows' bands in place, or changes nothing and says so. */
    method SetBands(lower: Vec, upper: Vec, decay: Vec) returns (moved: bool)
      requires |lower| == |upper| == |decay| <= |table|
      modifies this
      ensures var r := SetBandsSpec(old(table), lower, upper, decay);
        moved == r.Some? &&
        Value() == if moved then old(Value()).(table := r.value, inner := kernel.reband(old(inner), r.value))
          else old(Value())
    {
      var n := |lower|;
      for i := 0 to n
        invariant forall j :: 0 <= j < i ==> MovesInPlace(table[j], lower[j], upper[j])
      {
        if !MovesInPlace(table[i], lower[i], upper[i]) {
          return false;
        }
      }
      ghost var before := table;
      for i := 0 to n
        invariant |table| == |before| && inner == old(inner) && current == old(current)
        invariant forall j :: 0 <= j < |table| ==>
          table[j] == if j < i then MoveEntry(before[j], lower[j], upper[j], decay[j]) else before[j]
      {
        table := table[i := MoveEntry(table[i], lower[i], upper[i], decay[i])];
      }
      assert table == SetBandsSpec(before, lower, upper, decay).value;
      inner := kernel.reband(inner, table);
      moved := true;
    }
  }

  function SetBandsSpec(table: seq<Entry>, lower: Vec, upper: Vec, decay: Vec): Option<seq<Entry>>
    requires |lower| == |upper| == |decay| <= |table|
  {
    SessionModel.SetBands(table, lower, upper, decay)
  }

  class BundleSession<S> {
    const kernel: Kernel<S>
    var prob: Problem
    var client: nat
    var resolution: int
    var x: Vec
    var report: Report
    var engine: Engine?
    var stream: StreamingCalibrator?<S>
    var armed: bool
    var stepTol: real
    var bandsChanged: bool
    var hasBand: bool
    var lastTick: TickReport

    ghost function Repr(): set<object>
      reads this
    {
      {this} + (if engine == null then {} else {engine}) + (if stream == null then {} else {stream})
    }

    /** The session as a value: what every method's contract speaks about. */
    ghost function State(): Session<S>
      reads Repr()
    {
      Session(prob, client, resolution, x, report,
              if engine == null then None else Some(engine.rows),
              if stream == null then None else Some(stream.Value()),
              armed, stepTol, bandsChanged, hasBand, lastTick)
    }

    ghost predicate Valid()
      reads Repr()
    {
      Coherent(State()) &&
      (stream != null ==> stream.engine == engine && stream.kernel == kernel && stream.resolution == resolution)
    }

    constructor (kernel: Kernel<S>, p: Problem, smoothing: nat, resolution: int, x0: Vec)
      requires p.Valid()
      ensures Valid() && fresh(Repr()) && this.kernel == kernel
      ensures Construct(p, smoothing, resolution, x0) == Some(State())
    {
      this.kernel := kernel;
      prob, client := WithSmoothing(p, smoothing), |p.Rows()|;
      this.resolution, x, report := resolution, x0, NotSolved;
      engine, stream := null, null;
      armed, stepTol, bandsChanged, hasBand, lastTick := false, 0.0, false, AnyBanded(p.Rows()), TickReport(true, 0);
      new;
      ConstructIsCoherent<S>(p, smoothing, resolution, x0);
    }

    method EnsureEngine() returns (out: Outcome)
      requires Valid()
      modifies Repr()
      ensures Valid() && fresh(Repr() - old(Repr())) && stream == old(stream)
      ensures Next(State(), out) == SessionModel.EnsureEngine(old(State()))
    {
      if engine == null {
        if !prob.Valid() {
          return Refused(BadProblem);
        }
        engine := new Engine(prob);
      }
      out := Ok;
    }

    method Calibrate(x0: Vec) returns (out: Outcome)
      requires Valid()
      modifies Repr()
      ensures Valid() && fresh(Repr() - old(Repr())) && stream == old(stream)
      ensures Next(State(), out) == SessionModel.Calibrate(kernel, old(State()), x0)
    {
      out := EnsureEngine();
      if out.Ok? {
        var r := kernel.lm(resolution, engine.rows, x0);
        report := Solved(r.x, r.converged, false, r.iterations, r.rms);
        x := r.x;
      }
    }

    method StartStreaming(stepTol: real) returns (out: Outcome)
      requires Valid()
      modifies Repr()
      ensures Valid() && fresh(Repr() - old(Repr()))
      ensures Next(State(), out) == SessionModel.StartStreaming(kernel, old(State()), stepTol)
    {
      var q0 := prob.Markets();
      out := EnsureEngine();
      if out.Ok? {
        Anchor(if stepTol > 0.0 then stepTol else DEFAULT_STEP_TOL, q0);
        this.stepTol := stepTol;
      }
    }

    /** A new streamer on the session's engine, anchored at its curve. */
    method Anchor(tol: real, q: Vec)
      requires Valid() && engine != null
      modifies this
      ensures Valid() && stream != null && fresh(stream) && engine == old(engine)
      ensures State() == old(State()).(stream := Some(stream.Value()), armed := true, bandsChanged := false)
      ensures stream.Value() == Streamer(tol, Collect(prob.Rows()), x,
                                         kernel.anchor(resolution, tol, engine.rows, Collect(prob.Rows()), x, q))
    {
      stream := new StreamingCalibrator(kernel, engine, resolution, tol, prob, x, q);
      armed, bandsChanged := true, false;
    }

    /** Lands an accepted target vector on the quotes, then row by row on the engine if there is one. */
    method CommitTargets(m: Vec)
      requires Valid() && |m| == |prob.quotes| && TargetsInBand(prob.quotes, m)
      modifies Repr()
      ensures Valid() && stream == old(stream) && engine == old(engine)
      ensures State() == SessionModel.CommitTargets(old(State()), m)
    {
      CommitKeeps(State(), m);
      ghost var was := prob.quotes;
      var n := |m|;
      for i := 0 to n
        invariant prob == old(prob).(quotes := prob.quotes) && |prob.quotes| == n
        invariant forall j :: 0 <= j < n ==>
          prob.quotes[j] == if j < i then was[j].(quote := was[j].quote.(market := m[j])) else was[j]
        invariant engine == old(engine) && stream == old(stream) && State() == old(State()).(prob := prob)
      {
        prob := prob.(quotes := prob.quotes[i := prob.quotes[i].(quote := prob.quotes[i].quote.(market := m[i]))]);
      }
      assert prob.quotes == RowMarkets(was, m);
      if engine != null {
        engine.SetMarkets(m);
      }
    }

    method SetMarket(m: Vec) returns (out: Outcome)
      requires Valid()
      modifies Repr()
      ensures Valid() && stream == old(stream) && engine == old(engine)
      ensures Next(State(), out) == SessionModel.SetMarket(old(State()), m)
      ensures out.Ok? ==>
        && |prob.quotes| == |m| == |old(prob).quotes| && prob == old(prob).(quotes := prob.quotes)
        && (forall i :: 0 <= i < |m| ==>
              prob.quotes[i] == old(prob).quotes[i].(quote := old(prob).quotes[i].quote.(market := m[i])))
        && Mirrors(if engine == null then None else Some(engine.rows), prob)
    {
      SetMarketStores(State(), m);
      if |m| != |prob.quotes| {
        return Refused(WrongLength);
      }
      if !TargetsInBand(prob.quotes, m) {
        return Refused(OutOfBand);
      }
      CommitTargets(m);
      out := Ok;
    }

    method SetBand(row: int, lower: real, upper: real, decay: real) returns (out: Outcome)
      requires Valid()
      modifies Repr()
      ensures Valid() && stream == old(stream) && engine == old(engine)
      ensures Next(State(), out) == SessionModel.SetBand(old(State()), row, lower, upper, decay)
      ensures out.Ok? ==> 0 <= row < |old(prob).quotes|
      ensures out.Ok? ==>
        var r := old(prob).quotes[row];
        var q := Quote(r.quote.market, lower, upper, decay);
        && prob == old(prob).(quotes := old(prob).quotes[row := Row(q, r.shape)])
        && (engine != null ==> row < |old(engine.rows)| && engine.rows == old(engine.rows)[row := q])
    {
      SetBandKeeps(State(), row, lower, upper, decay);
      if row < 0 || row >= |prob.quotes| {
        return Refused(RowOutOfRange);
      }
      var q := prob.quotes[row].quote.(lower := lower, upper := upper, decay := decay);
      if !ValidQuote(q) {
        return Refused(OutOfBand);
      }
      if prob.quotes[row].shape.Mapped? && upper > lower {
        return Refused(BandOnMappedRow);
      }
      prob := prob.(quotes := prob.quotes[row := prob.quotes[row].(quote := q)]);
      RefreshHasBand();
      if engine != null {
        engine.SetQuote(row, q);
      }
      bandsChanged := true;
      out := Ok;
    }

    /** Re-derives the has-band flag from the quotes: the constraint rows are not looked at. */
    method RefreshHasBand()
      modifies this`hasBand
      ensures hasBand == AnyBanded(prob.quotes)
    {
      hasBand := false;
      var n := |prob.quotes|;
      for i := 0 to n
        invariant hasBand == AnyBanded(prob.quotes[..i])
      {
        hasBand := hasBand || Banded(prob.quotes[i].quote);
        assert prob.quotes[..i + 1] == prob.quotes[..i] + [prob.quotes[i]];
      }
      assert prob.quotes[..n] == prob.quotes;
    }

    method Refresh(q: Vec)
      requires Valid() && stream != null
      modifies Repr()
      ensures Valid() && stream == old(stream) && engine == old(engine)
      ensures State() == SessionModel.Refreshed(kernel, old(State()), q)
    {
      RefreshedKeeps(kernel, State(), q);
      if bandsChanged {
        stream.Resync(prob, x, q);
        bandsChanged := false;
      }
    }

    method Tick(q: Vec) returns (out: Outcome)
      requires Valid() && stream != null && !bandsChanged && q == prob.Markets()
      modifies Repr()
      ensures Valid() && stream == old(stream) && engine == old(engine)
      ensures Next(State(), out) == TickOnce(kernel, old(State()), q)
    {
      TickKeeps(kernel, State());
      var accepted, tick := stream.Update(q);
      if !accepted {
        return Refused(StreamerRefused);
      }
      lastTick := tick;
      out := Ok;
    }

    /** The one stamp of a converged tick. */
    method Stamp(rms: real)
      requires Valid() && stream != null
      modifies this`x, this`report
      ensures Valid() && State() == SessionModel.StampStreamed(old(State()), rms)
    {
      x := stream.current;
      report := Solved(x, true, true, lastTick.steps, rms);
    }

    /** The end of a warm solve. */
    method FinishWarm(q: Vec) returns (out: Outcome)
      requires Valid() && stream != null
      modifies Repr()
      ensures Valid() && fresh(Repr() - old(Repr()))
      ensures Next(State(), out) == SessionModel.FinishWarm(kernel, old(State()), q)
    {
      FinishWarmKeeps(kernel, State(), q);
      if lastTick.converged {
        x := stream.current;
        Stamp(kernel.rms(resolution, engine.rows, x));
        return Ok;
      }
      out := Calibrate(x);
      if out.Ok? {
        stream.Resync(prob, x, q);
      }
    }

    /** The end of a streamed update. */
    method FinishStream(q: Vec) returns (out: Outcome)
      requires Valid() && stream != null
      modifies Repr()
      ensures Valid() && fresh(Repr() - old(Repr()))
      ensures Next(State(), out) == SessionModel.FinishStream(kernel, old(State()), q)
    {
      FinishStreamKeeps(kernel, State(), q);
      x := stream.current;
      if lastTick.converged {
        Stamp(kernel.lastRms(stream.inner));
        return Ok;
      }
      out := Calibrate(x);
      if out.Ok? {
        stream.Resync(prob, x, q);
        x := report.x;
      }
    }

    method WarmSolve() returns (out: Outcome)
      requires Valid()
      modifies Repr()
      ensures Valid() && fresh(Repr() - old(Repr()))
      ensures Next(State(), out) == SessionModel.WarmSolve(kernel, old(State()))
    {
      var q := prob.Markets();
      if stream == null {
        StartKeeps(kernel, State(), 0.0);
        out := StartStreaming(0.0);
        if out.Refused? {
          return;
        }
      } else {
        RefreshedKeeps(kernel, State(), q);
        Refresh(q);
      }
      out := Tick(q);
      if out.Ok? {
        out := FinishWarm(q);
      }
    }

    method Resolve() returns (out: Outcome)
      requires Valid()
      modifies Repr()
      ensures Valid() && fresh(Repr() - old(Repr()))
      ensures Next(State(), out) == SessionModel.WarmSolve(kernel, old(State()))
    {
      out := WarmSolve();
    }

    method Recalibrate(m: Vec) returns (out: Outcome)
      requires Valid()
      modifies Repr()
      ensures Valid() && fresh(Repr() - old(Repr()))
      ensures Next(State(), out) == SessionModel.Recalibrate(kernel, old(State()), m)
    {
      if |m| != |prob.quotes| {
        return Refused(WrongLength);
      }
      out := SetMarket(m);
      if out.Ok? {
        out := WarmSolve();
      }
    }

    method StreamUpdate(m: Vec) returns (out: Outcome)
      requires Valid()
      modifies Repr()
      ensures Valid() && fresh(Repr() - old(Repr()))
      ensures Next(State(), out) == SessionModel.StreamUpdate(kernel, old(State()), m)
    {
      if stream == null {
        if !armed {
          return Refused(NotStreaming);
        }
        StartKeeps(kernel, State(), stepTol);
        out := StartStreaming(stepTol);
        if out.Refused? {
          return;
        }
      }
      if |m| != |prob.quotes| {
        return Refused(WrongLength);
      }
      if !TargetsInBand(prob.quotes, m) {
        return Refused(OutOfBand);
      }
      out := UpdateLive(m);
    }

    method UpdateLive(m: Vec) returns (out: Outcome)
      requires Valid() && stream != null && |m| == |prob.quotes| && TargetsInBand(prob.quotes, m)
      modifies Repr()
      ensures Valid() && fresh(Repr() - old(Repr()))
      ensures Next(State(), out) == SessionModel.UpdateLive(kernel, old(State()), m)
    {
      CommitTargets(m);
      var q := prob.Markets();
      RefreshedKeeps(kernel, State(), q);
      Refresh(q);
      TickKeeps(kernel, State());
      out := Tick(q);
      if out.Ok? {
        out := FinishStream(q);
      }
    }

    /** Lands validated bands: on the quotes, on the engine where a band moved, and on the streamer in place. */
    method RequoteBands(ghost m: Vec, lower: Vec, upper: Vec, decay: Vec)
      requires Valid() && Requotable(prob.quotes, m, lower, upper, decay)
      modifies Repr()
      ensures Valid() && stream == old(stream) && engine == old(engine)
      ensures State() == SessionModel.RequoteBands(kernel, old(State()), lower, upper, decay)
    {
      RequoteBandsKeeps(kernel, State(), m, lower, upper, decay);
      var moved := LandBands(lower, upper, decay);
      if !moved {
        assert engine != null ==> engine.rows == old(engine.rows);
        return;
      }
      RefreshHasBand();
      if stream != null {
        var inPlace := stream.SetBands(lower, upper, decay);
        bandsChanged := !inPlace || bandsChanged;
      }
    }

    /** The quotes' new bands, and the engine's four numbers on the rows whose band moved. */
    method LandBands(lower: Vec, upper: Vec, decay: Vec) returns (moved: bool)
      requires |prob.quotes| == |lower| == |upper| == |decay|
      requires engine != null ==> |engine.rows| == |prob.Rows()|
      modifies this`prob, engine
      ensures prob == old(prob).(quotes := RowBands(old(prob).quotes, lower, upper, decay))
      ensures moved <==> prob.quotes != old(prob).quotes
      ensures engine != null ==> engine.rows == EngineBands(old(engine.rows), old(prob).quotes, prob.quotes)
    {
      ghost var was := prob.quotes;
      ghost var after := RowBands(was, lower, upper, decay);
      var n := |lower|;
      moved := false;
      for i := 0 to n
        invariant prob == old(prob).(quotes := prob.quotes) && |prob.quotes| == n
        invariant forall j :: 0 <= j < n ==> prob.quotes[j] == if j < i then after[j] else was[j]
        invariant moved <==> exists j :: 0 <= j < i && after[j] != was[j]
        invariant engine != null ==> |engine.rows| == |old(engine.rows)| && forall j :: 0 <= j < |engine.rows| ==>
          engine.rows[j] == if j < i && was[j] != after[j] then after[j].quote else old(engine.rows)[j]
      {
        var r := prob.quotes[i];
        if !(r.quote.lower == lower[i] && r.quote.upper == upper[i] && r.quote.decay == decay[i]) {
          moved := true;
          var q := r.quote.(lower := lower[i], upper := upper[i], decay := decay[i]);
          prob := prob.(quotes := prob.quotes[i := r.(quote := q)]);
          if engine != null {
            engine.SetQuote(i, q);
          }
        }
      }
      assert prob.quotes == after;
    }

    method StreamRequote(m: Vec, lower: Vec, upper: Vec, decay: Vec) returns (out: Outcome)
      requires Valid()
      modifies Repr()
      ensures Valid() && fresh(Repr() - old(Repr()))
      ensures Next(State(), out) == SessionModel.StreamRequote(kernel, old(State()), m, lower, upper, decay)
    {
      if !SameLengths(|prob.quotes|, m, lower, upper, decay) {
        return Refused(WrongLength);
      }
      if !QuotesAccepted(prob.quotes, m, lower, upper, decay) {
        return Refused(OutOfBand);
      }
      if !BandsAccepted(prob.quotes, lower, upper) {
        return Refused(BandOnMappedRow);
      }
      RequoteBands(m, lower, upper, decay);
      out := StreamUpdate(m);
    }

    method Rebind(p: Problem) returns (out: Outcome)
      requires Valid()
      modifies Repr()
      ensures Valid() && fresh(Repr() - old(Repr()))
      ensures Next(State(), out) == SessionModel.Rebind(kernel, old(State()), p)
    {
      if !SameStructure(prob, client, p) {
        return Refused(StructureDiffers);
      }
      if !QuotesValid(p.Rows()) {
        return Refused(OutOfBand);
      }
      LandRebindKeeps(State(), p);
      LandRebind(p);
      WarmSolveKeeps(kernel, State());
      out := WarmSolve();
    }

    /** The quote half of a rebind: every client row takes p's target, and its band where that differs. */
    method LandRebind(p: Problem)
      requires Valid() && SameStructure(prob, client, p) && QuotesValid(p.Rows())
      modifies Repr()
      ensures Valid() && stream == old(stream) && engine == old(engine)
      ensures State() == SessionModel.LandRebind(old(State()), p)
    {
      LandRebindKeeps(State(), p);
      var changed := LandRows(p.Rows());
      if changed {
        RefreshHasBand();
        bandsChanged := true;
      }
      if engine != null {
        engine.SetQuotes(prob);
      }
    }

    method LandRows(src: seq<Row>) returns (changed: bool)
      requires |src| <= |prob.Rows()|
      modifies this`prob
      ensures var all := Rebound(old(prob).Rows(), src);
        var n := |old(prob).quotes|;
        n <= |all| && prob == old(prob).(quotes := all[..n], constraints := all[n..])
      ensures changed <==> BandsDiffer(old(prob).Rows(), src)
    {
      ghost var was := prob.Rows();
      ghost var all := Rebound(was, src);
      var n := |src|;
      changed := false;
      for i := 0 to n
        invariant prob == old(prob).(quotes := prob.quotes, constraints := prob.constraints)
        invariant |prob.quotes| == |old(prob).quotes| && |prob.Rows()| == |was|
        invariant forall j :: 0 <= j < |was| ==> prob.Rows()[j] == if j < i then all[j] else was[j]
        invariant changed <==> exists j :: 0 <= j < i && was[j].quote.(market := src[j].quote.market) != src[j].quote
      {
        var dst := prob.Rows()[i];
        var q := src[i].quote;
        if dst.quote.lower != q.lower || dst.quote.upper != q.upper || dst.quote.decay != q.decay {
          changed := true;
        }
        WriteRow(i, Row(q, dst.shape));
      }
      assert prob.Rows() == all;
      assert prob.quotes == all[..|prob.quotes|] && prob.constraints == all[|prob.quotes|..];
    }

    /** Row i of the residual order: the quotes, then the constraints. */
    method WriteRow(i: nat, r: Row)
      requires i < |prob.Rows()|
      modifies this`prob
      ensures prob == old(prob).(quotes := prob.quotes, constraints := prob.constraints)
      ensures |prob.quotes| == |old(prob).quotes| && prob.Rows() == old(prob).Rows()[i := r]
    {
      var n := |prob.quotes|;
      if i < n {
        prob := prob.(quotes := prob.quotes[i := r]);
      } else {
        prob := prob.(constraints := prob.constraints[i - n := r]);
      }
    }

    /** New fixings: when any observation carries a schedule the engine and its borrower are dropped. */
    method ResolveFixings(scheduled: bool, resolution: int)
      requires Valid()
      modifies this
      ensures Valid() && fresh(Repr() - old(Repr()))
      ensures Next(State(), Ok) == SessionModel.ResolveFixings(old(State()), scheduled, resolution)
    {
      if scheduled {
        this.resolution := resolution;
        engine, stream := null, null;
      }
    }

    /** One call on the object is the machine's step. */
    method Perform(c: Call) returns (out: Outcome)
      requires Valid()
      modifies Repr()
      ensures Valid() && fresh(Repr() - old(Repr()))
      ensures Next(State(), out) == Step(kernel, old(State()), c)
    {
      match c
      case CallSetMarket(m) => out := SetMarket(m);
      case CallSetBand(row, lower, upper, decay) => out := SetBand(row, lower, upper, decay);
      case CallCalibrate(x0) => out := Calibrate(x0);
      case CallResolve => out := Resolve();
      case CallRecalibrate(m) => out := Recalibrate(m);
      case CallRebind(p) => out := Rebind(p);
      case CallStartStreaming(tol) => out := StartStreaming(tol);
      case CallStreamUpdate(m) => out := StreamUpdate(m);
      case CallStreamRequote(m, lowers, uppers, decays) => out := StreamRequote(m, lowers, uppers, decays);
      case CallResolveFixings(scheduled, fixings) =>
        ResolveFixings(scheduled, fixings);
        out := Ok;
    }

    /** Any calls on the object leave it where the machine's run ends, so the theorems over every run are about it. */
    method Play(calls: seq<Call>)
      requires Valid()
      modifies Repr()
      ensures Valid() && fresh(Repr() - old(Repr()))
      ensures State() == Run(kernel, old(State()), calls)
    {
      var n := |calls|;
      for i := 0 to n
        invariant Valid() && fresh(Repr() - old(Repr()))
        invariant Run(kernel, State(), calls[i..]) == Run(kernel, old(State()), calls)
      {
        assert calls[i..][1..] == calls[i + 1..];
        var _ := Perform(calls[i]);
      }
    }
  }
}
