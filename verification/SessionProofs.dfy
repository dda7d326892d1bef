/** What every run of the streaming session keeps, and when its two requote verbs agree. */
module SessionProofs {
  import opened SessionModel
  import opened Wrappers

  // ---- vocabulary -----------------------------------------------------------------------------------------

  /** Nothing a caller quoted, and nothing it reads a price off, has moved; an engine may at most have been built. */
  ghost predicate Unmoved<S>(s: Session<S>, t: Session<S>) {
    t.prob == s.prob && t.x == s.x && (s.engine.Some? ==> t.engine == s.engine)
  }

  /** The rows' kinds and the smoothing tail are the constructed ones. */
  ghost predicate SameSkeleton<S>(s: Session<S>, t: Session<S>) {
    && t.client == s.client && t.prob.structure == s.prob.structure
    && |t.prob.quotes| == |s.prob.quotes| && |t.prob.Rows()| == |s.prob.Rows()|
    && t.prob.Shapes() == s.prob.Shapes()
    && (s.client <= |s.prob.Rows()| ==> t.prob.Rows()[s.client..] == s.prob.Rows()[s.client..])
  }

  /** The streamer's committed curve is the session's. */
  ghost predicate InSync<S>(s: Session<S>) {
    s.stream.Some? ==> s.stream.value.current == s.x
  }

  ghost predicate Reported<S>(s: Session<S>) {
    s.report.Solved? ==> s.report.x == s.x
  }

  // ---- the in-place band move is a re-read ----------------------------------------------------------------

  /** Moving the bands in place leaves the table a full re-read of the requoted rows would give. */
  lemma SetBandsIsCollect(rows: seq<Row>, tail: seq<Row>, m: Vec, lower: Vec, upper: Vec, decay: Vec)
    requires Requotable(rows, m, lower, upper, decay)
    ensures var moved := SetBands(Collect(rows + tail), lower, upper, decay);
            moved.Some? ==> moved.value == Collect(RowBands(rows, lower, upper, decay) + tail)
  {
    var table := Collect(rows + tail);
    var moved := SetBands(table, lower, upper, decay);
    if moved.Some? {
      forall i | 0 <= i < |rows| ensures moved.value[i] == CollectRow(RowBands(rows, lower, upper, decay)[i]) {
        assert MovesInPlace(table[i], lower[i], upper[i]);
        assert ValidQuote(Quote(m[i], lower[i], upper[i], decay[i]));
      }
    }
  }

  /** It is refused exactly when some row gains or loses its band. */
  lemma SetBandsRefusedIff(rows: seq<Row>, tail: seq<Row>, m: Vec, lower: Vec, upper: Vec, decay: Vec)
    requires Requotable(rows, m, lower, upper, decay)
    requires forall i :: 0 <= i < |rows| ==> ValidRow(rows[i])
    ensures SetBands(Collect(rows + tail), lower, upper, decay).None? <==>
            exists i :: 0 <= i < |rows| && Banded(rows[i].quote) != (upper[i] > lower[i])
  {
    var table := Collect(rows + tail);
    forall i | 0 <= i < |rows|
      ensures MovesInPlace(table[i], lower[i], upper[i]) <==> (Banded(rows[i].quote) <==> upper[i] > lower[i])
    {
      assert ValidRow(rows[i]);
      assert table[i] == CollectRow(rows[i]);
    }
  }

  // ---- what each verb keeps -------------------------------------------------------------------------------

  /** Nothing of the problem moved. */
  ghost predicate SameProblem<S>(s: Session<S>, t: Session<S>) {
    t.prob == s.prob && t.client == s.client
  }

  lemma EngineKeeps<S>(s: Session<S>)
    requires Coherent(s)
    ensures var n := EnsureEngine(s);
            && SameProblem(s, n.session) && Coherent(n.session) && n.session.stream == s.stream && n.session.x == s.x
            && n.session.report == s.report && Unmoved(s, n.session)
            && (n.outcome.Ok? <==> s.engine.Some? || s.prob.Valid())
            && (n.outcome.Ok? <==> n.session.engine.Some?)
  {
  }

  lemma ResyncKeeps<S>(k: Kernel<S>, s: Session<S>, x: Vec, q: Vec)
    requires Coherent(s.(bandsChanged := true)) && s.stream.Some?
    ensures var t := Resync(k, s, x, q);
            && SameProblem(s, t) && t.x == s.x && t.report == s.report && t.engine == s.engine
            && Coherent(t) && Coherent(t.(bandsChanged := false))
            && t.stream.Some? && t.stream.value.current == x && t.bandsChanged == s.bandsChanged
  {
  }

  lemma CalibrateKeeps<S>(k: Kernel<S>, s: Session<S>, x0: Vec)
    requires Coherent(s)
    ensures var n := Calibrate(k, s, x0);
            && SameProblem(s, n.session) && Coherent(n.session) && n.session.stream == s.stream
            && n.session.bandsChanged == s.bandsChanged
            && (n.outcome.Refused? ==> Unmoved(s, n.session))
            && (n.outcome.Ok? <==> s.engine.Some? || s.prob.Valid())
            && (n.outcome.Ok? ==> n.session.engine.Some? && n.session.report.Solved? && Reported(n.session))
  {
    EngineKeeps(s);
  }

  lemma StartKeeps<S>(k: Kernel<S>, s: Session<S>, tol: real)
    requires Coherent(s)
    ensures var n := StartStreaming(k, s, tol);
            && SameProblem(s, n.session) && Coherent(n.session) && n.session.x == s.x && n.session.report == s.report
            && Unmoved(s, n.session)
            && (n.outcome.Ok? <==> s.engine.Some? || s.prob.Valid())
            && (n.outcome.Ok? ==> n.session.stream.Some? && InSync(n.session) && !n.session.bandsChanged)
  {
    EngineKeeps(s);
  }

  lemma TickKeeps<S>(k: Kernel<S>, s: Session<S>)
    requires Coherent(s) && s.stream.Some? && !s.bandsChanged
    ensures var n := TickOnce(k, s, s.prob.Markets());
            && SameProblem(s, n.session) && Coherent(n.session) && n.session.x == s.x && n.session.report == s.report
            && n.session.stream.Some? && n.session.engine == s.engine && !n.session.bandsChanged
            && (s.prob.Valid() ==> n.outcome.Ok?)
  {
    if s.prob.Valid() {
      AcceptsOwnMarket(s.prob);
    }
  }

  /** The streamer never refuses a market the session holds: a table read off valid rows contains their targets. */
  lemma AcceptsOwnMarket(p: Problem)
    requires p.Valid()
    ensures UpdateAccepts(Collect(p.Rows()), p.Markets())
  {
    forall i | 0 <= i < |p.Rows()|
      ensures var e := Collect(p.Rows())[i]; e.upper > e.lower ==> e.lower <= p.Markets()[i] <= e.upper
    {
      assert ValidRow(p.Rows()[i]);
    }
  }

  lemma FinishWarmKeeps<S>(k: Kernel<S>, s: Session<S>, q: Vec)
    requires Coherent(s) && s.stream.Some?
    ensures var n := FinishWarm(k, s, q);
            && SameProblem(s, n.session) && Coherent(n.session) && n.outcome.Ok?
            && n.session.stream.Some? && InSync(n.session) && n.session.report.Solved? && Reported(n.session)
  {
    if !s.lastTick.converged {
      CalibrateKeeps(k, s, s.x);
      var c := Calibrate(k, s, s.x).session;
      ResyncKeeps(k, c, c.x, q);
    }
  }

  lemma FinishStreamKeeps<S>(k: Kernel<S>, s: Session<S>, q: Vec)
    requires Coherent(s) && s.stream.Some?
    ensures var n := FinishStream(k, s, q);
            && SameProblem(s, n.session) && Coherent(n.session) && n.outcome.Ok?
            && n.session.stream.Some? && InSync(n.session) && n.session.report.Solved? && Reported(n.session)
  {
    if !s.lastTick.converged {
      var t := s.(x := s.stream.value.current);
      CalibrateKeeps(k, t, t.x);
      var c := Calibrate(k, t, t.x).session;
      ResyncKeeps(k, c, c.x, q);
    }
  }

  // ---- the two endings ------------------------------------------------------------------------------------

  /** A session with the reported residual left out. */
  ghost function Unscored<S>(s: Session<S>): Session<S> {
    if s.report.Solved? then s.(report := s.report.(rms := 0.0)) else s
  }

  /** On a converged tick, the residual the streamer remembers is the one a re-evaluation gives. */
  ghost predicate SameScore<S>(k: Kernel<S>, s: Session<S>)
    requires s.stream.Some? && s.engine.Some?
  {
    s.lastTick.converged ==>
      k.rms(s.resolution, s.engine.value, s.stream.value.current) == k.lastRms(s.stream.value.inner)
  }

  /** After a tick that converged, or that failed on the session's own curve, the two separately written endings leave
      the same session but for the reported residual, and the very same one exactly when the residuals agree. */
  lemma FinishesAgree<S>(k: Kernel<S>, s: Session<S>, q: Vec)
    requires Coherent(s) && s.stream.Some? && (s.lastTick.converged || InSync(s))
    ensures FinishWarm(k, s, q).outcome == FinishStream(k, s, q).outcome
    ensures Unscored(FinishWarm(k, s, q).session) == Unscored(FinishStream(k, s, q).session)
    ensures FinishWarm(k, s, q) == FinishStream(k, s, q) <==> SameScore(k, s)
  {
    if !s.lastTick.converged {
      var t := s.(x := s.stream.value.current);
      assert t == s;
      var c := Calibrate(k, s, s.x);
      CalibrateKeeps(k, s, s.x);
      var r := Resync(k, c.session, c.session.x, q);
      assert r.report.x == r.x;
      assert r.(x := r.report.x) == r;
    }
  }

  lemma RefreshedKeeps<S>(k: Kernel<S>, s: Session<S>, q: Vec)
    requires Coherent(s) && s.stream.Some?
    ensures var t := Refreshed(k, s, q);
            && SameProblem(s, t) && t.x == s.x && t.report == s.report && t.engine == s.engine
            && Coherent(t) && t.stream.Some? && !t.bandsChanged
            && (s.bandsChanged || InSync(s) ==> InSync(t))
  {
    if s.bandsChanged {
      ResyncKeeps(k, s, s.x, q);
    }
  }

  /** A solve moves no quote; when every row is valid it is never refused, and it ends in sync. */
  lemma WarmSolveKeeps<S>(k: Kernel<S>, s: Session<S>)
    requires Coherent(s)
    ensures var n := WarmSolve(k, s);
            && SameProblem(s, n.session) && Coherent(n.session)
            && (s.prob.Valid() ==> n.outcome.Ok?)
            && (n.outcome.Ok? ==>
                  n.session.stream.Some? && InSync(n.session) && n.session.report.Solved? && Reported(n.session))
            && (Reported(s) ==> Reported(n.session)) && (InSync(s) ==> InSync(n.session))
  {
    var q := s.prob.Markets();
    if s.stream.None? {
      StartKeeps(k, s, 0.0);
    } else {
      RefreshedKeeps(k, s, q);
    }
    var a := if s.stream.None? then StartStreaming(k, s, 0.0) else Next(Refreshed(k, s, q), Ok);
    if a.outcome.Ok? {
      TickKeeps(k, a.session);
      var t := TickOnce(k, a.session, q);
      if t.outcome.Ok? {
        FinishWarmKeeps(k, t.session, q);
      }
    }
  }

  // ---- the quote verbs ------------------------------------------------------------------------------------

  /** Landing accepted targets keeps every row valid and the engine a copy; only the quotes' targets move. */
  lemma CommitKeeps<S>(s: Session<S>, m: Vec)
    requires Coherent(s) && |m| == |s.prob.quotes| && TargetsInBand(s.prob.quotes, m)
    ensures var t := CommitTargets(s, m);
            && SameSkeleton(s, t) && Coherent(t) && t.x == s.x && t.report == s.report && t.stream == s.stream
            && t.bandsChanged == s.bandsChanged && (s.engine.Some? <==> t.engine.Some?)
            && (forall i :: 0 <= i < |m| ==>
                t.prob.quotes[i] == s.prob.quotes[i].(quote := s.prob.quotes[i].quote.(market := m[i])))
            && t.prob.constraints == s.prob.constraints
            && (s.prob.Valid() ==> t.prob.Valid())
  {
    var t := CommitTargets(s, m);
    var n := |s.prob.quotes|;
    assert forall i :: 0 <= i < |s.prob.Rows()| ==>
      t.prob.Rows()[i] == if i < n then s.prob.Rows()[i].(quote := s.prob.Rows()[i].quote.(market := m[i]))
        else s.prob.Rows()[i];
    assert t.prob.Shapes() == s.prob.Shapes();
    assert Collect(t.prob.Rows()) == Collect(s.prob.Rows());
    assert s.engine.Some? ==> t.engine.value == t.prob.Quotes();
    if s.prob.Valid() {
      forall i | 0 <= i < |t.prob.Rows()| ensures ValidRow(t.prob.Rows()[i]) {
        assert ValidRow(s.prob.Rows()[i]);
      }
    }
  }

  lemma SetBandKeeps<S>(s: Session<S>, row: int, lower: real, upper: real, decay: real)
    requires Coherent(s)
    ensures var n := SetBand(s, row, lower, upper, decay);
            && SameSkeleton(s, n.session) && Coherent(n.session) && n.session.x == s.x && n.session.report == s.report
            && n.session.stream == s.stream
            && (n.outcome.Refused? ==> n.session == s)
            && (s.prob.Valid() ==> n.session.prob.Valid())
  {
    var n := SetBand(s, row, lower, upper, decay);
    if n.outcome.Ok? {
      var t := n.session;
      var r := t.prob.quotes[row];
      assert t.prob.Rows() == s.prob.Rows()[row := r];
      assert t.prob.Shapes() == s.prob.Shapes();
      assert s.engine.Some? ==> t.engine.value == t.prob.Quotes();
    }
  }

  /** An update that can stream lands: the session's quotes are the market it was handed, and it ends in sync. */
  lemma StreamUpdateLands<S>(k: Kernel<S>, s: Session<S>, m: Vec)
    requires Coherent(s) && |m| == |s.prob.quotes| && TargetsInBand(s.prob.quotes, m)
    requires CommitTargets(s, m).prob.Valid()
    requires s.stream.Some? || (s.armed && (s.engine.Some? || s.prob.Valid()))
    ensures var n := StreamUpdate(k, s, m);
            && n.outcome.Ok? && n.session.prob == CommitTargets(s, m).prob && n.session.client == s.client
            && Coherent(n.session) && n.session.stream.Some?
            && InSync(n.session) && n.session.report.Solved? && Reported(n.session)
  {
    if s.stream.None? {
      StartKeeps(k, s, s.stepTol);
    }
    var a := if s.stream.Some? then s else StartStreaming(k, s, s.stepTol).session;
    CommitKeeps(a, m);
    var b := CommitTargets(a, m);
    var q := b.prob.Markets();
    RefreshedKeeps(k, b, q);
    TickKeeps(k, Refreshed(k, b, q));
    var t := TickOnce(k, Refreshed(k, b, q), q).session;
    FinishStreamKeeps(k, t, q);
  }

  /** On valid rows a streamed update is accepted exactly by an armed session whose bands contain the targets. */
  lemma StreamUpdateKeeps<S>(k: Kernel<S>, s: Session<S>, m: Vec)
    requires Coherent(s) && s.prob.Valid()
    ensures var n := StreamUpdate(k, s, m);
            && SameSkeleton(s, n.session) && Coherent(n.session) && n.session.prob.Valid()
            && (n.outcome.Ok? <==>
                  (s.stream.Some? || s.armed) && |m| == |s.prob.quotes| && TargetsInBand(s.prob.quotes, m))
            && (n.outcome.Ok? ==>
                  n.session.prob == CommitTargets(s, m).prob && InSync(n.session) && Reported(n.session))
            && (n.outcome.Refused? ==>
                  Unmoved(s, n.session) && n.session.report == s.report && (InSync(s) ==> InSync(n.session)))
  {
    if s.stream.None? && s.armed {
      StartKeeps(k, s, s.stepTol);
    }
    if (s.stream.Some? || s.armed) && |m| == |s.prob.quotes| && TargetsInBand(s.prob.quotes, m) {
      CommitKeeps(s, m);
      StreamUpdateLands(k, s, m);
    }
  }

  /** Whatever the rows, an update keeps the rows' kinds, the smoothing tail and coherence. */
  lemma StreamUpdateCoherent<S>(k: Kernel<S>, s: Session<S>, m: Vec)
    requires Coherent(s)
    ensures var n := StreamUpdate(k, s, m);
            && SameSkeleton(s, n.session) && Coherent(n.session)
            && (n.outcome.Ok? ==> InSync(n.session) && Reported(n.session))
            && (Reported(s) ==> Reported(n.session)) && (InSync(s) ==> InSync(n.session))
  {
    if s.stream.None? {
      StartKeeps(k, s, s.stepTol);
    }
    var a := if s.stream.Some? then Next(s, Ok) else if !s.armed then Next(s, Refused(NotStreaming))
      else StartStreaming(k, s, s.stepTol);
    if a.outcome.Ok? && |m| == |s.prob.quotes| && TargetsInBand(s.prob.quotes, m) {
      CommitKeeps(a.session, m);
      var b := CommitTargets(a.session, m);
      var q := b.prob.Markets();
      RefreshedKeeps(k, b, q);
      TickKeeps(k, Refreshed(k, b, q));
      var t := TickOnce(k, Refreshed(k, b, q), q);
      if t.outcome.Ok? {
        FinishStreamKeeps(k, t.session, q);
      }
    }
  }

  // ---- the four-number requote ----------------------------------------------------------------------------

  /** Every quote's CURRENT target lies in the band it is about to be given. */
  ghost predicate OldTargetsFit(rows: seq<Row>, lower: Vec, upper: Vec, decay: Vec)
    requires |rows| == |lower| == |upper| == |decay|
  {
    forall i :: 0 <= i < |rows| ==> ValidQuote(rows[i].quote.(lower := lower[i], upper := upper[i], decay := decay[i]))
  }

  /** The guard a caller can check: a live streamer, or an armed session that can rebuild one. */
  ghost predicate RequoteLands<S>(s: Session<S>, lower: Vec, upper: Vec, decay: Vec)
    requires |s.prob.quotes| == |lower| == |upper| == |decay|
  {
    s.stream.Some? || (s.armed && (s.engine.Some? || OldTargetsFit(s.prob.quotes, lower, upper, decay)))
  }

  lemma RequoteBandsKeeps<S>(k: Kernel<S>, s: Session<S>, m: Vec, lower: Vec, upper: Vec, decay: Vec)
    requires Coherent(s) && Requotable(s.prob.quotes, m, lower, upper, decay)
    ensures var t := RequoteBands(k, s, lower, upper, decay);
            && t.prob == s.prob.(quotes := RowBands(s.prob.quotes, lower, upper, decay))
            && t.x == s.x && t.report == s.report && t.armed == s.armed && t.client == s.client
            && t.stepTol == s.stepTol
            && (t.engine.Some? <==> s.engine.Some?) && (t.stream.Some? <==> s.stream.Some?)
            && (s.stream.Some? ==> t.stream.value.current == s.stream.value.current)
            && SameSkeleton(s, t) && Coherent(t)
  {
    var rows := s.prob.quotes;
    var after := RowBands(rows, lower, upper, decay);
    var prob := s.prob.(quotes := after);
    assert prob.Shapes() == s.prob.Shapes();
    if s.engine.Some? && rows != after {
      forall i | 0 <= i < |prob.Rows()| ensures EngineBands(s.engine.value, rows, after)[i] == prob.Quotes()[i] {
      }
      assert EngineBands(s.engine.value, rows, after) == prob.Quotes();
    }
    SetBandsIsCollect(rows, s.prob.constraints, m, lower, upper, decay);
  }

  lemma RequoteValidity(p: Problem, m: Vec, lower: Vec, upper: Vec, decay: Vec)
    requires p.Valid() && Requotable(p.quotes, m, lower, upper, decay)
    ensures var t := p.(quotes := RowBands(p.quotes, lower, upper, decay));
            && (t.Valid() <==> OldTargetsFit(p.quotes, lower, upper, decay))
            && t.(quotes := RowMarkets(t.quotes, m)).Valid()
  {
    var n := |p.quotes|;
    var t := p.(quotes := RowBands(p.quotes, lower, upper, decay));
    var u := t.(quotes := RowMarkets(t.quotes, m));
    forall i | 0 <= i < |p.Rows()|
      ensures ValidRow(u.Rows()[i])
      ensures i < n ==> t.Rows()[i] == t.quotes[i]
      ensures ValidRow(t.Rows()[i]) <==> (i < n ==> ValidQuote(t.quotes[i].quote))
    {
      assert ValidRow(p.Rows()[i]);
      if i < n {
        assert ValidQuote(Quote(m[i], lower[i], upper[i], decay[i]));
        assert u.Rows()[i].quote == Quote(m[i], lower[i], upper[i], decay[i]);
      }
    }
    if t.Valid() {
      forall i | 0 <= i < n
        ensures ValidQuote(p.quotes[i].quote.(lower := lower[i], upper := upper[i], decay := decay[i]))
      {
        assert ValidRow(t.Rows()[i]);
      }
    }
  }
}