/** The session's main results: the two requote verbs agree, refusals move nothing, and what every run keeps. */
module SessionTheorems {
  import opened SessionModel
  import opened SessionProofs
  import opened Wrappers

  // ---- recalibrate(q) and stream_update(q) are one requote ------------------------------------------------

  /** An accepted market lands, a pending re-anchor is taken, and the streamer ticks. */
  ghost function Ticked<S>(k: Kernel<S>, s: Session<S>, m: Vec): Next<S>
    requires s.stream.Some? && s.engine.Some? && |m| == |s.prob.quotes|
  {
    var b := CommitTargets(s, m);
    var q := b.prob.Markets();
    TickOnce(k, Refreshed(k, b, q), q)
  }

  /** Nothing ticks, or the tick's remembered residual is the re-evaluated one. */
  ghost predicate ScoresAgree<S>(k: Kernel<S>, s: Session<S>, m: Vec)
    requires s.stream.Some? && s.engine.Some?
  {
    |m| == |s.prob.quotes| && TargetsInBand(s.prob.quotes, m) && Ticked(k, s, m).outcome.Ok? ==>
      SameScore(k, Ticked(k, s, m).session)
  }

  /** On a live streamer that is in sync, or about to be re-anchored, the two verbs end with the same outcome, quotes,
      engine rows, streamer, curve and report, but for the report's residual; that one agrees too exactly when the
      residual the streamer remembers is the one a re-evaluation gives. */
  lemma RecalibrateIsStreamUpdate<S>(k: Kernel<S>, s: Session<S>, m: Vec)
    requires Coherent(s) && s.stream.Some? && (InSync(s) || s.bandsChanged)
    ensures Recalibrate(k, s, m).outcome == StreamUpdate(k, s, m).outcome
    ensures Unscored(Recalibrate(k, s, m).session) == Unscored(StreamUpdate(k, s, m).session)
    ensures Recalibrate(k, s, m) == StreamUpdate(k, s, m) <==> ScoresAgree(k, s, m)
  {
    if |m| == |s.prob.quotes| && TargetsInBand(s.prob.quotes, m) {
      var b := CommitTargets(s, m);
      var q := b.prob.Markets();
      CommitKeeps(s, m);
      RefreshedKeeps(k, b, q);
      var r := Refreshed(k, b, q);
      assert InSync(r);
      TickKeeps(k, r);
      var t := TickOnce(k, r, q);
      if t.outcome.Ok? {
        FinishesAgree(k, t.session, q);
        assert Recalibrate(k, s, m) == FinishWarm(k, t.session, q);
        assert StreamUpdate(k, s, m) == FinishStream(k, t.session, q);
      }
    }
  }

  /** Out of sync the agreement fails: some kernel tells the two verbs apart on every accepted market. The tick of this
      one fails and its solve returns the seed, so the verbs end on the curves they seeded from. */
  lemma OutOfSyncVerbsDiffer(s: Session<()>, m: Vec) returns (k: Kernel<()>)
    requires Coherent(s) && s.prob.Valid() && s.stream.Some? && !InSync(s) && !s.bandsChanged
    requires |m| == |s.prob.quotes| && TargetsInBand(s.prob.quotes, m)
    ensures Recalibrate(k, s, m).session.x != StreamUpdate(k, s, m).session.x
  {
    k := Kernel((r, rows, seed) => Solve(seed, true, 0, 0.0), (r, tol, rows, t, x, q) => (),
                (r, tol, i, t, rows, x, q) => Tick(false, 0, [], ()), (i, t) => (), (r, rows, x) => 0.0, i => 0.0);
    var b := CommitTargets(s, m);
    var q := b.prob.Markets();
    CommitKeeps(s, m);
    TickKeeps(k, b);
    assert Refreshed(k, b, q) == b;
    var t := TickOnce(k, b, q).session;
    FinishWarmKeeps(k, t, q);
    FinishStreamKeeps(k, t, q);
  }

  /** In sync, the stamps of the two verbs need not be the same: some kernel makes them report different residuals on
      every accepted market, the one re-evaluated and the other the last step's. */
  lemma StampsDiffer(s: Session<()>, m: Vec) returns (k: Kernel<()>)
    requires Coherent(s) && s.prob.Valid() && s.stream.Some? && !s.bandsChanged
    requires |m| == |s.prob.quotes| && TargetsInBand(s.prob.quotes, m)
    ensures Recalibrate(k, s, m).session.report == Solved([], true, true, 0, 0.0)
    ensures StreamUpdate(k, s, m).session.report == Solved([], true, true, 0, 1.0)
  {
    k := Kernel((r, rows, seed) => Solve(seed, true, 0, 0.0), (r, tol, rows, t, x, q) => (),
                (r, tol, i, t, rows, x, q) => Tick(true, 0, [], ()), (i, t) => (), (r, rows, x) => 0.0, i => 1.0);
    var b := CommitTargets(s, m);
    CommitKeeps(s, m);
    TickKeeps(k, b);
    assert Refreshed(k, b, b.prob.Markets()) == b;
  }

  /** With no live streamer the verbs differ too: recalibrate restarts at tolerance 0, an armed update at the
      session's. */
  lemma ColdRequoteTolerance<S>(k: Kernel<S>, s: Session<S>, m: Vec)
    requires Coherent(s) && s.prob.Valid() && s.stream.None?
    requires |m| == |s.prob.quotes| && TargetsInBand(s.prob.quotes, m)
    ensures Recalibrate(k, s, m).outcome.Ok? && Recalibrate(k, s, m).session.stepTol == 0.0
    ensures s.armed ==> StreamUpdate(k, s, m).outcome.Ok? && StreamUpdate(k, s, m).session.stepTol == s.stepTol
  {
    CommitKeeps(s, m);
    WarmSolveKeeps(k, CommitTargets(s, m));
    StreamUpdateKeeps(k, s, m);
  }

  // ---- the four-number requote ----------------------------------------------------------------------------

  /** On valid rows, a requote that passes validation is accepted exactly when it can stream. */
  lemma RequoteAcceptedIff<S>(k: Kernel<S>, s: Session<S>, m: Vec, lower: Vec, upper: Vec, decay: Vec)
    requires Coherent(s) && s.prob.Valid() && Requotable(s.prob.quotes, m, lower, upper, decay)
    ensures var n := StreamRequote(k, s, m, lower, upper, decay);
            && Coherent(n.session) && SameSkeleton(s, n.session)
            && (n.outcome.Ok? <==> RequoteLands(s, lower, upper, decay))
            && (n.outcome.Ok? ==>
                  && n.session.prob.Valid() && InSync(n.session) && n.session.report.Solved? && Reported(n.session)
                  && forall i :: 0 <= i < |m| ==>
                    n.session.prob.quotes[i].quote == Quote(m[i], lower[i], upper[i], decay[i]))
            && (n.outcome.Refused? ==> n.session.prob == s.prob.(quotes := RowBands(s.prob.quotes, lower, upper, decay))
                                       && n.session.x == s.x && n.session.report == s.report && n.session.stream.None?)
  {
    var b := RequoteBands(k, s, lower, upper, decay);
    RequoteBandsKeeps(k, s, m, lower, upper, decay);
    RequoteValidity(s.prob, m, lower, upper, decay);
    forall i | 0 <= i < |m| && Banded(b.prob.quotes[i].quote)
      ensures ValidQuote(b.prob.quotes[i].quote.(market := m[i]))
    {
      assert ValidQuote(Quote(m[i], lower[i], upper[i], decay[i]));
    }
    assert TargetsInBand(b.prob.quotes, m);
    StreamUpdateCoherent(k, b, m);
    if RequoteLands(s, lower, upper, decay) {
      StreamUpdateLands(k, b, m);
    }
  }

  /** A refused four-number requote leaves quotes, bands, engine rows and curve alone exactly when it failed validation
      or moves no band: on a session that cannot stream, the bands land before the call throws. */
  lemma RefusedRequoteUnmovedIff<S>(k: Kernel<S>, s: Session<S>, m: Vec, lower: Vec, upper: Vec, decay: Vec)
    requires Coherent(s) && s.prob.Valid()
    requires StreamRequote(k, s, m, lower, upper, decay).outcome.Refused?
    ensures Unmoved(s, StreamRequote(k, s, m, lower, upper, decay).session) <==>
            !Requotable(s.prob.quotes, m, lower, upper, decay)
            || RowBands(s.prob.quotes, lower, upper, decay) == s.prob.quotes
    ensures StreamRequote(k, s, m, lower, upper, decay).session.prob.Valid() <==>
            !Requotable(s.prob.quotes, m, lower, upper, decay) || OldTargetsFit(s.prob.quotes, lower, upper, decay)
  {
    if Requotable(s.prob.quotes, m, lower, upper, decay) {
      RequoteAcceptedIff(k, s, m, lower, upper, decay);
      RequoteValidity(s.prob, m, lower, upper, decay);
      StreamUpdateKeeps(k, s, m);
    }
  }

  /** Concretely: one quote at 1 with no band, never streamed. Requoting it to 3 inside [2, 4] is refused, and the quote
      is left at 1 outside the band [2, 4] it now carries. */
  lemma UnarmedRequoteStrandsTheQuote(k: Kernel<()>)
    ensures var p := Problem(0, [Row(Quote(1.0, 0.0, 0.0, 1.0), Plain)], []);
            var s: Option<Session<()>> := Construct(p, 0, 0, []);
            s.Some? && Coherent(s.value) &&
            var n := StreamRequote(k, s.value, [3.0], [2.0], [4.0], [0.5]);
            n.outcome == Refused(NotStreaming) && n.session.prob.quotes[0].quote == Quote(1.0, 2.0, 4.0, 0.5)
            && !n.session.prob.Valid()
  {
    var p := Problem(0, [Row(Quote(1.0, 0.0, 0.0, 1.0), Plain)], []);
    ConstructIsCoherent<()>(p, 0, 0, []);
    assert ValidRow(p.Rows()[0]);
    var s: Session<()> := Construct(p, 0, 0, []).value;
    assert s.prob.quotes == p.quotes;
    var n := StreamRequote(k, s, [3.0], [2.0], [4.0], [0.5]);
    assert n.session.prob.quotes == RowBands(p.quotes, [2.0], [4.0], [0.5]);
    assert !ValidRow(n.session.prob.Rows()[0]);
  }

  lemma ConstructIsCoherent<S>(p: Problem, smoothing: nat, resolution: int, x0: Vec)
    ensures var s: Option<Session<S>> := Construct(p, smoothing, resolution, x0);
            && (s.Some? <==> p.Valid())
            && (s.Some? ==> Coherent(s.value) && s.value.prob.Valid() && InSync(s.value) && Reported(s.value)
                            && s.value.prob.Rows()[..s.value.client] == p.Rows()
                            && |s.value.prob.Rows()[s.value.client..]| == smoothing
                            && forall r :: r in s.value.prob.Rows()[s.value.client..] ==> r == SMOOTHING_ROW)
  {
    var q := WithSmoothing(p, smoothing);
    assert q.Rows() == p.Rows() + seq(smoothing, i => SMOOTHING_ROW);
    if p.Valid() {
      forall i | 0 <= i < |q.Rows()| ensures ValidRow(q.Rows()[i]) {
        if i < |p.Rows()| {
          assert ValidRow(p.Rows()[i]);
        }
      }
    }
  }

  // ---- rebind ---------------------------------------------------------------------------------------------

  lemma LandRebindKeeps<S>(s: Session<S>, p: Problem)
    requires Coherent(s) && SameStructure(s.prob, s.client, p) && QuotesValid(p.Rows())
    ensures var t := LandRebind(s, p);
            && t.prob.Rows() == Rebound(s.prob.Rows(), p.Rows())
            && t.stream == s.stream && t.x == s.x && t.report == s.report
            && SameSkeleton(s, t) && Coherent(t)
  {
    var t := LandRebind(s, p);
    var rows := Rebound(s.prob.Rows(), p.Rows());
    assert t.prob.Rows() == rows;
    forall i | 0 <= i < |rows| ensures rows[i].shape == s.prob.Rows()[i].shape {
    }
    assert t.prob.Shapes() == s.prob.Shapes();
    if !BandsDiffer(s.prob.Rows(), p.Rows()) {
      UnchangedBandsCollect(s.prob.Rows(), p.Rows());
    }
  }

  /** A rebind checks the four numbers but not the rows' shapes: it keeps every row valid exactly when it puts no band
      on a mapped row. Either way it keeps the tail, and on valid rows it is refused only before anything moves. */
  lemma RebindKeeps<S>(k: Kernel<S>, s: Session<S>, p: Problem)
    requires Coherent(s)
    ensures var n := Rebind(k, s, p);
            && SameSkeleton(s, n.session) && Coherent(n.session)
            && (n.outcome.Ok? ==> InSync(n.session) && Reported(n.session))
            && (Reported(s) ==> Reported(n.session)) && (InSync(s) ==> InSync(n.session))
            && (SameStructure(s.prob, s.client, p) && QuotesValid(p.Rows()) ==>
                  && n.session.prob.Rows() == Rebound(s.prob.Rows(), p.Rows())
                  && (s.prob.Valid() ==> (n.session.prob.Valid() <==> p.Valid()))
                  && (s.prob.Valid() && p.Valid() ==> n.outcome.Ok?))
            && (!(SameStructure(s.prob, s.client, p) && QuotesValid(p.Rows())) ==> n.session == s && n.outcome.Refused?)
  {
    if SameStructure(s.prob, s.client, p) && QuotesValid(p.Rows()) {
      LandRebindKeeps(s, p);
      WarmSolveKeeps(k, LandRebind(s, p));
      if s.prob.Valid() {
        ReboundValidity(s, p);
      }
    }
  }

  lemma UnchangedBandsCollect(rows: seq<Row>, p: seq<Row>)
    requires |p| <= |rows| && !BandsDiffer(rows, p)
    ensures Collect(Rebound(rows, p)) == Collect(rows)
  {
    forall i | 0 <= i < |rows| ensures CollectRow(Rebound(rows, p)[i]) == CollectRow(rows[i]) {
      if i < |p| {
        assert rows[i].quote.(market := p[i].quote.market) == p[i].quote;
      }
    }
  }

  lemma ReboundValidity<S>(s: Session<S>, p: Problem)
    requires SameStructure(s.prob, s.client, p) && QuotesValid(p.Rows())
    requires s.prob.Valid()
    ensures (forall i :: 0 <= i < |s.prob.Rows()| ==> ValidRow(Rebound(s.prob.Rows(), p.Rows())[i])) <==> p.Valid()
  {
    var rows := Rebound(s.prob.Rows(), p.Rows());
    forall i | 0 <= i < |rows| ensures ValidRow(rows[i]) <==> (i < |p.Rows()| ==> ValidRow(p.Rows()[i])) {
      assert ValidRow(s.prob.Rows()[i]);
      if i < |p.Rows()| {
        assert p.Shapes()[i] == s.prob.Shapes()[..s.client][i];
      }
    }
    if forall i :: 0 <= i < |rows| ==> ValidRow(rows[i]) {
      forall i | 0 <= i < |p.Rows()| ensures ValidRow(p.Rows()[i]) {
        assert ValidRow(rows[i]);
      }
    }
  }

  // ---- one step -------------------------------------------------------------------------------------------

  lemma RequoteCoherent<S>(k: Kernel<S>, s: Session<S>, m: Vec, lower: Vec, upper: Vec, decay: Vec)
    requires Coherent(s)
    ensures var n := StreamRequote(k, s, m, lower, upper, decay);
            && SameSkeleton(s, n.session) && Coherent(n.session)
            && (n.outcome.Ok? ==> InSync(n.session) && Reported(n.session))
            && (Reported(s) ==> Reported(n.session)) && (InSync(s) ==> InSync(n.session))
  {
    if Requotable(s.prob.quotes, m, lower, upper, decay) {
      RequoteBandsKeeps(k, s, m, lower, upper, decay);
      StreamUpdateCoherent(k, RequoteBands(k, s, lower, upper, decay), m);
    }
  }

  lemma RecalibrateKeeps<S>(k: Kernel<S>, s: Session<S>, m: Vec)
    requires Coherent(s)
    ensures var n := Recalibrate(k, s, m);
            && SameSkeleton(s, n.session) && Coherent(n.session)
            && (n.outcome.Ok? ==> InSync(n.session) && Reported(n.session))
            && (Reported(s) ==> Reported(n.session)) && (InSync(s) ==> InSync(n.session))
            && (s.prob.Valid() ==> n.session.prob.Valid())
            && (s.prob.Valid() ==> (n.outcome.Ok? <==> |m| == |s.prob.quotes| && TargetsInBand(s.prob.quotes, m)))
            && (s.prob.Valid() && n.outcome.Refused? ==> n.session == s)
            && (n.outcome.Ok? ==> n.session.prob == CommitTargets(s, m).prob)
  {
    if |m| == |s.prob.quotes| && TargetsInBand(s.prob.quotes, m) {
      CommitKeeps(s, m);
      WarmSolveKeeps(k, CommitTargets(s, m));
    }
  }

  /** No call ever breaks coherence, moves a row's kind, or touches the smoothing tail, refused or not; and a report,
      once there is one, is the curve's. */
  lemma StepCoherent<S>(k: Kernel<S>, s: Session<S>, c: Call)
    requires Coherent(s)
    ensures var n := Step(k, s, c).session;
            Coherent(n) && SameSkeleton(s, n) && (Reported(s) ==> Reported(n))
  {
    match c
    case CallSetMarket(m) =>
      if |m| == |s.prob.quotes| && TargetsInBand(s.prob.quotes, m) {
        CommitKeeps(s, m);
      }
    case CallSetBand(row, lo, up, dc) => SetBandKeeps(s, row, lo, up, dc);
    case CallCalibrate(x0) => CalibrateKeeps(k, s, x0);
    case CallResolve => WarmSolveKeeps(k, s);
    case CallRecalibrate(m) => RecalibrateKeeps(k, s, m);
    case CallRebind(p) => RebindKeeps(k, s, p);
    case CallStartStreaming(tol) => StartKeeps(k, s, tol);
    case CallStreamUpdate(m) => StreamUpdateCoherent(k, s, m);
    case CallStreamRequote(m, lo, up, dc) => RequoteCoherent(k, s, m, lo, up, dc);
    case CallResolveFixings(scheduled, resolution) =>
  }

  /** The calls that can leave a row its own engine would refuse, exactly: a rebind that bands a mapped row, and a
      four-number requote that cannot stream and whose new bands exclude a current target. */
  ghost predicate Prudent<S>(s: Session<S>, c: Call) {
    match c
    case CallRebind(p) => SameStructure(s.prob, s.client, p) && QuotesValid(p.Rows()) ==> p.Valid()
    case CallStreamRequote(m, lo, up, dc) =>
      Requotable(s.prob.quotes, m, lo, up, dc) ==>
        RequoteLands(s, lo, up, dc) || OldTargetsFit(s.prob.quotes, lo, up, dc)
    case _ => true
  }

  /** From valid rows a call leaves valid rows exactly when it is prudent. */
  lemma StepValidIff<S>(k: Kernel<S>, s: Session<S>, c: Call)
    requires Coherent(s) && s.prob.Valid()
    ensures Step(k, s, c).session.prob.Valid() <==> Prudent(s, c)
  {
    match c
    case CallSetMarket(m) =>
      if |m| == |s.prob.quotes| && TargetsInBand(s.prob.quotes, m) {
        CommitKeeps(s, m);
      }
    case CallSetBand(row, lo, up, dc) => SetBandKeeps(s, row, lo, up, dc);
    case CallCalibrate(x0) => CalibrateKeeps(k, s, x0);
    case CallResolve => WarmSolveKeeps(k, s);
    case CallRecalibrate(m) => RecalibrateKeeps(k, s, m);
    case CallRebind(p) => RebindKeeps(k, s, p);
    case CallStartStreaming(tol) => StartKeeps(k, s, tol);
    case CallStreamUpdate(m) => StreamUpdateKeeps(k, s, m);
    case CallStreamRequote(m, lo, up, dc) =>
      if Requotable(s.prob.quotes, m, lo, up, dc) {
        RequoteAcceptedIff(k, s, m, lo, up, dc);
        if !RequoteLands(s, lo, up, dc) {
          RefusedRequoteUnmovedIff(k, s, m, lo, up, dc);
        }
      }
    case CallResolveFixings(scheduled, resolution) =>
  }

  /** From valid rows, every prudent call that is refused leaves quotes, bands, engine rows and curve alone, the
      four-number requote excepted (`RefusedRequoteUnmovedIff`). */
  lemma RefusedStepUnmoved<S>(k: Kernel<S>, s: Session<S>, c: Call)
    requires Coherent(s) && s.prob.Valid() && Prudent(s, c) && !c.CallStreamRequote?
    requires Step(k, s, c).outcome.Refused?
    ensures Unmoved(s, Step(k, s, c).session)
  {
    match c
    case CallSetMarket(m) =>
    case CallSetBand(row, lo, up, dc) => SetBandKeeps(s, row, lo, up, dc);
    case CallCalibrate(x0) => CalibrateKeeps(k, s, x0);
    case CallResolve => WarmSolveKeeps(k, s);
    case CallRecalibrate(m) => RecalibrateKeeps(k, s, m);
    case CallRebind(p) => RebindKeeps(k, s, p);
    case CallStartStreaming(tol) => StartKeeps(k, s, tol);
    case CallStreamUpdate(m) => StreamUpdateKeeps(k, s, m);
    case CallResolveFixings(scheduled, resolution) =>
  }

  /** The streamer stays on the session's curve through every call except a bare solve that moves it. */
  lemma StepInSyncIff<S>(k: Kernel<S>, s: Session<S>, c: Call)
    requires Coherent(s) && InSync(s)
    ensures InSync(Step(k, s, c).session) <==>
            !(c.CallCalibrate? && s.stream.Some? && k.lm(s.resolution, s.engine.value, c.x0).x != s.x)
  {
    match c
    case CallSetMarket(m) =>
      if |m| == |s.prob.quotes| && TargetsInBand(s.prob.quotes, m) {
        CommitKeeps(s, m);
      }
    case CallSetBand(row, lo, up, dc) => SetBandKeeps(s, row, lo, up, dc);
    case CallCalibrate(x0) => CalibrateKeeps(k, s, x0);
    case CallResolve => WarmSolveKeeps(k, s);
    case CallRecalibrate(m) => RecalibrateKeeps(k, s, m);
    case CallRebind(p) => RebindKeeps(k, s, p);
    case CallStartStreaming(tol) => StartKeeps(k, s, tol);
    case CallStreamUpdate(m) => StreamUpdateCoherent(k, s, m);
    case CallStreamRequote(m, lo, up, dc) => RequoteCoherent(k, s, m, lo, up, dc);
    case CallResolveFixings(scheduled, resolution) =>
  }

  // ---- every run ------------------------------------------------------------------------------------------

  ghost function Run<S>(k: Kernel<S>, s: Session<S>, calls: seq<Call>): (t: Session<S>)
    requires Coherent(s)
    ensures Coherent(t)
    decreases |calls|
  {
    if calls == [] then s
    else
      StepCoherent(k, s, calls[0]);
      Run(k, Step(k, s, calls[0]).session, calls[1..])
  }

  /** In every reachable state the engine is absent or holds the problem's four numbers on every row, the rows' kinds
      are the constructed ones, and the smoothing tail is the one installed at construction. */
  lemma {:induction false} EveryRunIsCoherent<S>(k: Kernel<S>, s: Session<S>, calls: seq<Call>)
    requires Coherent(s)
    ensures var t := Run(k, s, calls);
            && SameSkeleton(s, t) && (Reported(s) ==> Reported(t))
            && (t.engine.Some? ==> t.engine.value == t.prob.Quotes())
    decreases |calls|
  {
    if calls != [] {
      StepCoherent(k, s, calls[0]);
      EveryRunIsCoherent(k, Step(k, s, calls[0]).session, calls[1..]);
    }
  }

  ghost predicate PrudentRun<S>(k: Kernel<S>, s: Session<S>, calls: seq<Call>)
    requires Coherent(s)
    decreases |calls|
  {
    calls == [] ||
    (Prudent(s, calls[0]) && (StepCoherent(k, s, calls[0]); PrudentRun(k, Step(k, s, calls[0]).session, calls[1..])))
  }

  /** Along every prudent run each quote stays inside its band with a decay in [0, 1], so no verb is ever refused by the
      engine or the streamer. */
  lemma {:induction false} EveryPrudentRunIsValid<S>(k: Kernel<S>, s: Session<S>, calls: seq<Call>)
    requires Coherent(s) && s.prob.Valid() && PrudentRun(k, s, calls)
    ensures Run(k, s, calls).prob.Valid()
    ensures forall i :: 0 <= i < |Run(k, s, calls).prob.Rows()| ==>
              var q := Run(k, s, calls).prob.Rows()[i].quote;
              Banded(q) ==> q.lower <= q.market <= q.upper && 0.0 <= q.decay <= 1.0
    decreases |calls|
  {
    if calls == [] {
      forall i | 0 <= i < |s.prob.Rows()| ensures ValidRow(s.prob.Rows()[i]) {
      }
    } else {
      StepCoherent(k, s, calls[0]);
      StepValidIff(k, s, calls[0]);
      EveryPrudentRunIsValid(k, Step(k, s, calls[0]).session, calls[1..]);
    }
  }

  /** Every run with no bare solve keeps the streamer on the session's curve, so at its end the two requote verbs
      agree on any market, accepted or refused, in everything but the reported residual. */
  lemma {:induction false} VerbsAgreeAfterEveryRun<S>(k: Kernel<S>, s: Session<S>, calls: seq<Call>, m: Vec)
    requires Coherent(s) && InSync(s) && forall i :: 0 <= i < |calls| ==> !calls[i].CallCalibrate?
    ensures InSync(Run(k, s, calls))
    ensures Run(k, s, calls).stream.Some? ==>
      var t := Run(k, s, calls);
      && Recalibrate(k, t, m).outcome == StreamUpdate(k, t, m).outcome
      && Unscored(Recalibrate(k, t, m).session) == Unscored(StreamUpdate(k, t, m).session)
      && (Recalibrate(k, t, m) == StreamUpdate(k, t, m) <==> ScoresAgree(k, t, m))
    decreases |calls|
  {
    if calls == [] {
      if s.stream.Some? {
        RecalibrateIsStreamUpdate(k, s, m);
      }
    } else {
      StepCoherent(k, s, calls[0]);
      StepInSyncIff(k, s, calls[0]);
      VerbsAgreeAfterEveryRun(k, Step(k, s, calls[0]).session, calls[1..], m);
    }
  }

  // ---- two more limits ------------------------------------------------------------------------------------

  /** Concretely: a session with one mapped quote, engine not yet built. Rebinding it to a banded quote passes the
      number check, lands the band, and only then is refused, by the engine's own validation. */
  lemma RebindBandsAMappedRow(k: Kernel<()>)
    ensures var p := Problem(0, [Row(Quote(1.0, 0.0, 0.0, 1.0), Mapped(true))], []);
            var banded := Problem(0, [Row(Quote(1.0, 0.5, 2.0, 1.0), Mapped(true))], []);
            var s: Option<Session<()>> := Construct(p, 0, 0, []);
            s.Some? && Coherent(s.value) &&
            var n := Rebind(k, s.value, banded);
            n.outcome == Refused(BadProblem) && n.session.prob.quotes == banded.quotes && !n.session.prob.Valid()
  {
    var p := Problem(0, [Row(Quote(1.0, 0.0, 0.0, 1.0), Mapped(true))], []);
    var banded := Problem(0, [Row(Quote(1.0, 0.5, 2.0, 1.0), Mapped(true))], []);
    ConstructIsCoherent<()>(p, 0, 0, []);
    assert ValidRow(p.Rows()[0]);
    var s: Session<()> := Construct(p, 0, 0, []).value;
    assert s.prob.Rows() == p.Rows() && p.Shapes() == banded.Shapes() == s.prob.Shapes()[..1];
    LandRebindKeeps(s, banded);
    var t := LandRebind(s, banded);
    assert t.prob.Rows() == banded.Rows();
    assert !ValidRow(t.prob.Rows()[0]);
  }

  lemma AnyBandedConcat(a: seq<Row>, b: seq<Row>)
    ensures AnyBanded(a + b) <==> AnyBanded(a) || AnyBanded(b)
  {
    if i :| 0 <= i < |a| && Banded(a[i].quote) {
      assert (a + b)[i] == a[i];
    }
    if i :| 0 <= i < |b| && Banded(b[i].quote) {
      assert (a + b)[|a| + i] == b[i];
    }
  }

  lemma SameBands(a: seq<Row>, b: seq<Row>)
    requires |a| == |b| && forall i :: 0 <= i < |a| ==> (Banded(a[i].quote) <==> Banded(b[i].quote))
    ensures AnyBanded(a) <==> AnyBanded(b)
  {
  }

  ghost predicate OtherBanded(rows: seq<Row>, row: int) {
    exists i :: 0 <= i < |rows| && i != row && Banded(rows[i].quote)
  }

  /** The constructor's has-band flag counts constraint rows; a band edit recounts the quotes alone. After an accepted
      edit the flag is what the constructor would say exactly when the edit sets a band, another quote has one, or no
      constraint does. */
  lemma FlagAfterBandEditIff<S>(s: Session<S>, row: int, lower: real, upper: real, decay: real)
    requires Coherent(s) && SetBand(s, row, lower, upper, decay).outcome.Ok?
    ensures var t := SetBand(s, row, lower, upper, decay).session;
            t.hasBand == AnyBanded(t.prob.Rows()) <==>
            upper > lower || OtherBanded(s.prob.quotes, row) || !AnyBanded(s.prob.constraints)
  {
    var t := SetBand(s, row, lower, upper, decay).session;
    AnyBandedConcat(t.prob.quotes, t.prob.constraints);
    assert Banded(t.prob.quotes[row].quote) <==> upper > lower;
    assert forall i :: 0 <= i < |t.prob.quotes| && i != row ==> t.prob.quotes[i] == s.prob.quotes[i];
  }

  /** The rows appended at construction, none of which carries a band there. */
  ghost function Tail<S>(s: Session<S>): seq<Row>
    requires s.client <= |s.prob.Rows()|
  {
    s.prob.Rows()[s.client..]
  }

  /** A rebind that changes some band recounts the quotes alone as well; one that changes none leaves the flag. */
  lemma FlagAfterRebindIff<S>(s: Session<S>, p: Problem)
    requires Coherent(s) && SameStructure(s.prob, s.client, p) && QuotesValid(p.Rows())
    ensures var t := LandRebind(s, p);
            t.hasBand == AnyBanded(t.prob.Rows()) <==>
            if BandsDiffer(s.prob.Rows(), p.Rows())
            then AnyBanded(p.quotes) || !(AnyBanded(p.constraints) || AnyBanded(Tail(s)))
            else s.hasBand == AnyBanded(s.prob.Rows())
  {
    var t := LandRebind(s, p);
    LandRebindKeeps(s, p);
    AnyBandedConcat(t.prob.quotes, t.prob.constraints);
    ReboundBands(s, p);
    if !BandsDiffer(s.prob.Rows(), p.Rows()) {
      forall i | 0 <= i < |t.prob.Rows()|
        ensures Banded(t.prob.Rows()[i].quote) <==> Banded(s.prob.Rows()[i].quote)
      {
        if i < |p.Rows()| {
          assert s.prob.Rows()[i].quote.(market := p.Rows()[i].quote.market) == p.Rows()[i].quote;
        }
      }
      SameBands(t.prob.Rows(), s.prob.Rows());
    }
  }

  /** After a rebind the bands are the given problem's, and the tail's own. */
  lemma ReboundBands<S>(s: Session<S>, p: Problem)
    requires Coherent(s) && SameStructure(s.prob, s.client, p) && QuotesValid(p.Rows())
    ensures var t := LandRebind(s, p);
            && (AnyBanded(t.prob.quotes) <==> AnyBanded(p.quotes))
            && (AnyBanded(t.prob.constraints) <==> AnyBanded(p.constraints) || AnyBanded(Tail(s)))
  {
    var t, n, m := LandRebind(s, p), |p.quotes|, |p.constraints|;
    LandRebindKeeps(s, p);
    ReboundQuotes(s, p);
    var front, tail := t.prob.constraints[..m], t.prob.constraints[m..];
    AnyBandedConcat(front, tail);
    assert t.prob.constraints == front + tail;
    SameBands(t.prob.quotes, p.quotes);
    SameBands(front, p.constraints);
    assert tail == t.prob.Rows()[s.client..];
  }

  lemma ReboundQuotes<S>(s: Session<S>, p: Problem)
    requires SameStructure(s.prob, s.client, p)
    ensures var t := LandRebind(s, p);
            && |t.prob.quotes| == |p.quotes| && |t.prob.constraints| >= |p.constraints|
            && (forall i :: 0 <= i < |p.quotes| ==> t.prob.quotes[i].quote == p.quotes[i].quote)
            && (forall i :: 0 <= i < |p.constraints| ==> t.prob.constraints[i].quote == p.constraints[i].quote)
  {
    forall i | 0 <= i < |p.constraints| ensures LandRebind(s, p).prob.constraints[i].quote == p.constraints[i].quote {
      assert p.Rows()[|p.quotes| + i] == p.constraints[i];
    }
  }

  /** So does a four-number requote. */
  lemma FlagAfterRequoteIff<S>(k: Kernel<S>, s: Session<S>, m: Vec, lower: Vec, upper: Vec, decay: Vec)
    requires Coherent(s) && Requotable(s.prob.quotes, m, lower, upper, decay)
    ensures var t := RequoteBands(k, s, lower, upper, decay);
            t.hasBand == AnyBanded(t.prob.Rows()) <==>
            if RowBands(s.prob.quotes, lower, upper, decay) != s.prob.quotes
            then (exists i :: 0 <= i < |upper| && upper[i] > lower[i]) || !AnyBanded(s.prob.constraints)
            else s.hasBand == AnyBanded(s.prob.Rows())
  {
    var t := RequoteBands(k, s, lower, upper, decay);
    AnyBandedConcat(t.prob.quotes, t.prob.constraints);
    var rows := RowBands(s.prob.quotes, lower, upper, decay);
    assert forall i :: 0 <= i < |rows| ==> (Banded(rows[i].quote) <==> upper[i] > lower[i]);
    assert AnyBanded(rows) <==> exists i :: 0 <= i < |upper| && upper[i] > lower[i];
  }

  /** Concretely: a banded quote beside a banded constraint. Lifting the quote's band drops the flag, although the
      constraint keeps its band and a session built from the same rows would have set it. */
  lemma FlagForgetsConstraints()
    ensures var band := Row(Quote(1.0, 0.5, 2.0, 1.0), Plain);
            var s: Option<Session<()>> := Construct(Problem(0, [band], [band]), 0, 0, []);
            s.Some? && s.value.hasBand &&
            var n := SetBand(s.value, 0, 0.0, 0.0, 1.0);
            n.outcome.Ok? && !n.session.hasBand && AnyBanded(n.session.prob.Rows())
            && (Construct<()>(n.session.prob, 0, 0, []).Some? ==> Construct<()>(n.session.prob, 0, 0, []).value.hasBand)
  {
    var band := Row(Quote(1.0, 0.5, 2.0, 1.0), Plain);
    var p := Problem(0, [band], [band]);
    ConstructIsCoherent<()>(p, 0, 0, []);
    assert p.Rows()[0] == band && p.Rows()[1] == band;
    var s: Session<()> := Construct(p, 0, 0, []).value;
    assert s.prob.Rows() == p.Rows();
    var n := SetBand(s, 0, 0.0, 0.0, 1.0);
    assert n.session.prob.Rows()[1] == band;
    assert Banded(n.session.prob.Rows()[1].quote);
  }
}
