/** What each session verb stores, number by number: the quotes, the engine's copy of them, the streamer's table and the
    report of whatever solved. */
module SessionEffects {
  import opened SessionModel
  import opened SessionProofs
  import opened SessionTheorems
  import opened Wrappers

  // ---- vocabulary -----------------------------------------------------------------------------------------

  /** Row i of a problem: its quotes come first, then its constraints. */
  ghost function RowAt(p: Problem, i: nat): Row
    requires i < |p.quotes| + |p.constraints|
  {
    if i < |p.quotes| then p.quotes[i] else p.constraints[i - |p.quotes|]
  }

  /** The engine is absent, or holds exactly the four numbers of every row. */
  ghost predicate Mirrors(engine: Option<seq<Quote>>, p: Problem) {
    engine.Some? ==>
      |engine.value| == |p.quotes| + |p.constraints|
      && forall i :: 0 <= i < |engine.value| ==> engine.value[i] == RowAt(p, i).quote
  }

  /** `q` is every row's target. */
  ghost predicate Targets(q: Vec, p: Problem) {
    |q| == |p.quotes| + |p.constraints| && forall i :: 0 <= i < |q| ==> q[i] == RowAt(p, i).quote.market
  }

  /** Every row passes the engine's validation. */
  ghost predicate Sound(p: Problem) {
    forall i :: 0 <= i < |p.quotes| + |p.constraints| ==>
      var q := RowAt(p, i).quote;
      && (q.upper == q.lower || (q.lower <= q.market <= q.upper && 0.0 <= q.decay <= 1.0))
      && (RowAt(p, i).shape.Mapped? ==> q.upper <= q.lower)
  }

  /** Entry `e` is what a streamer reads off row `r`: its band, whether an edit may track it, and how it is tracked. */
  ghost predicate ReadOff(e: Entry, r: Row) {
    && e.lower == r.quote.lower && e.upper == r.quote.upper && (e.eligible <==> r.shape != FxForward)
    && (r.shape == Mapped(true) ==> e.track == General)
    && (r.shape == Mapped(false) || r.shape == FxForward ==> e.track == Untracked)
    && (r.shape == Plain ==>
          e.track == if r.quote.upper > r.quote.lower && r.quote.decay >= 0.0
            then Band(r.quote.lower, r.quote.upper, r.quote.decay) else Untracked)
  }

  /** Streamer `a` has just been anchored at curve `x` and market `q` on session `s`. */
  ghost predicate Anchored<S>(k: Kernel<S>, s: Session<S>, a: Streamer<S>, x: Vec, q: Vec) {
    && s.engine.Some? && a.current == x && |a.table| == |s.prob.quotes| + |s.prob.constraints|
    && (forall i :: 0 <= i < |a.table| ==> ReadOff(a.table[i], RowAt(s.prob, i)))
    && a.inner == k.anchor(s.resolution, a.tol, s.engine.value, a.table, x, q)
  }

  lemma RowsAre(p: Problem)
    ensures |p.Rows()| == |p.quotes| + |p.constraints|
    ensures forall i :: 0 <= i < |p.Rows()| ==> p.Rows()[i] == RowAt(p, i)
    ensures Mirrors(Some(p.Quotes()), p) && Targets(p.Markets(), p) && (Sound(p) <==> p.Valid())
  {
    forall i | 0 <= i < |p.Rows()| ensures p.Rows()[i] == RowAt(p, i) {
    }
    if Sound(p) {
      forall i | 0 <= i < |p.Rows()| ensures ValidRow(p.Rows()[i]) {
        assert p.Rows()[i] == RowAt(p, i);
      }
    }
    if p.Valid() {
      forall i | 0 <= i < |p.Rows()| ensures ValidRow(RowAt(p, i)) {
        assert ValidRow(p.Rows()[i]);
      }
    }
  }

  lemma CoherentMirrors<S>(s: Session<S>)
    requires Coherent(s)
    ensures Mirrors(s.engine, s.prob)
  {
    RowsAre(s.prob);
  }

  lemma AnyBandedIff(rows: seq<Row>)
    ensures AnyBanded(rows) <==> exists i :: 0 <= i < |rows| && rows[i].quote.upper > rows[i].quote.lower
  {
    if i :| 0 <= i < |rows| && rows[i].quote.upper > rows[i].quote.lower {
      assert Banded(rows[i].quote);
    }
  }

  // ---- construction ---------------------------------------------------------------------------------------

  /** A session starts unsolved at the given curve, with no engine, streamer or pending band edit; its rows are the
      client's, then the smoothing rows; its flag says whether any client row has a band. */
  lemma ConstructStores<S>(p: Problem, smoothing: nat, resolution: int, x0: Vec)
    ensures var c: Option<Session<S>> := Construct(p, smoothing, resolution, x0);
            && (c.Some? <==> Sound(p))
            && (c.Some? ==>
                  var t := c.value;
                  && t.prob.structure == p.structure && t.prob.quotes == p.quotes
                  && t.prob.constraints[..|p.constraints|] == p.constraints
                  && |t.prob.constraints| == |p.constraints| + smoothing
                  && (forall i :: |p.constraints| <= i < |t.prob.constraints| ==>
                        t.prob.constraints[i] == Row(Quote(0.0, 0.0, 0.0, 1.0), Plain))
                  && t.client == |p.quotes| + |p.constraints| && t.resolution == resolution && t.x == x0
                  && t.report == NotSolved && t.engine == None && t.stream == None
                  && !t.armed && t.stepTol == 0.0 && !t.bandsChanged
                  && (t.hasBand <==> exists i :: 0 <= i < t.client
                                       && RowAt(p, i).quote.upper > RowAt(p, i).quote.lower))
  {
    RowsAre(p);
    assert AnyBanded(p.Rows()) <==>
      exists i :: 0 <= i < |p.Rows()| && RowAt(p, i).quote.upper > RowAt(p, i).quote.lower by {
      if i :| 0 <= i < |p.Rows()| && Banded(p.Rows()[i].quote) {
        assert p.Rows()[i] == RowAt(p, i);
      }
      if i :| 0 <= i < |p.Rows()| && RowAt(p, i).quote.upper > RowAt(p, i).quote.lower {
        assert Banded(p.Rows()[i].quote);
      }
    }
  }

  // ---- the quote verbs ------------------------------------------------------------------------------------

  /** A market is accepted exactly when it has one target per quote and each target of a banded quote lies in a band
      whose decay is in [0, 1]; it then replaces the targets, on the quotes and on the engine, and nothing else. */
  lemma SetMarketStores<S>(s: Session<S>, m: Vec)
    requires Coherent(s)
    ensures var n, t := SetMarket(s, m), SetMarket(s, m).session;
            && (n.outcome.Ok? <==>
                  |m| == |s.prob.quotes| && forall i :: 0 <= i < |m| ==>
                    var q := s.prob.quotes[i].quote;
                    q.upper > q.lower ==> q.lower <= m[i] <= q.upper && 0.0 <= q.decay <= 1.0)
            && (n.outcome.Ok? ==>
                  && t == s.(prob := s.prob.(quotes := t.prob.quotes), engine := t.engine)
                  && |t.prob.quotes| == |m| && (t.engine.Some? <==> s.engine.Some?) && Mirrors(t.engine, t.prob)
                  && forall i :: 0 <= i < |m| ==>
                    var q := s.prob.quotes[i].quote;
                    t.prob.quotes[i] == Row(Quote(m[i], q.lower, q.upper, q.decay), s.prob.quotes[i].shape))
            && (n.outcome.Refused? ==>
                  t == s && n.outcome.reason == if |m| == |s.prob.quotes| then OutOfBand else WrongLength)
  {
    if |m| == |s.prob.quotes| {
      assert TargetsInBand(s.prob.quotes, m) <==>
        forall i :: 0 <= i < |m| ==>
          var q := s.prob.quotes[i].quote;
          q.upper > q.lower ==> q.lower <= m[i] <= q.upper && 0.0 <= q.decay <= 1.0 by {
        forall i | 0 <= i < |m|
          ensures var q := s.prob.quotes[i].quote;
            (Banded(q) ==> ValidQuote(q.(market := m[i]))) <==>
            (q.upper > q.lower ==> q.lower <= m[i] <= q.upper && 0.0 <= q.decay <= 1.0)
        {
        }
      }
      if TargetsInBand(s.prob.quotes, m) {
        CommitKeeps(s, m);
        CoherentMirrors(CommitTargets(s, m));
      }
    }
  }

  /** A band edit is accepted exactly when the row is a quote, the band contains the row's target with a decay in [0, 1]
      (or is no band), and the row carries no penalty map of its own; it then stores the three numbers beside the old
      target, on that quote and on that engine row, and nowhere else. */
  lemma SetBandStores<S>(s: Session<S>, row: int, lower: real, upper: real, decay: real)
    requires Coherent(s)
    ensures var n, t := SetBand(s, row, lower, upper, decay), SetBand(s, row, lower, upper, decay).session;
            && (n.outcome.Ok? <==>
                  && 0 <= row < |s.prob.quotes|
                  && (upper == lower ||
                      (lower <= s.prob.quotes[row].quote.market <= upper && 0.0 <= decay <= 1.0))
                  && (upper > lower ==> !s.prob.quotes[row].shape.Mapped?))
            && (n.outcome.Refused? ==> t == s)
            && (n.outcome.Ok? ==>
                  && t == s.(prob := s.prob.(quotes := t.prob.quotes), engine := t.engine, hasBand := t.hasBand,
                             bandsChanged := true)
                  && |t.prob.quotes| == |s.prob.quotes|
                  && t.prob.quotes[row] ==
                     Row(Quote(s.prob.quotes[row].quote.market, lower, upper, decay), s.prob.quotes[row].shape)
                  && (forall i :: 0 <= i < |t.prob.quotes| && i != row ==> t.prob.quotes[i] == s.prob.quotes[i])
                  && (t.hasBand <==> exists i :: 0 <= i < |t.prob.quotes|
                                       && t.prob.quotes[i].quote.upper > t.prob.quotes[i].quote.lower)
                  && (t.engine.Some? <==> s.engine.Some?) && Mirrors(t.engine, t.prob)
                  && (s.engine.Some? ==>
                        && |t.engine.value| == |s.engine.value|
                        && t.engine.value[row] == Quote(s.prob.quotes[row].quote.market, lower, upper, decay)
                        && forall i :: 0 <= i < |s.engine.value| && i != row ==>
                          t.engine.value[i] == s.engine.value[i]))
  {
    var n := SetBand(s, row, lower, upper, decay);
    SetBandKeeps(s, row, lower, upper, decay);
    CoherentMirrors(n.session);
    if n.outcome.Ok? {
      AnyBandedIff(n.session.prob.quotes);
    }
  }

  /** Some client row of `p` differs from the session's in a band number. */
  ghost predicate MovesABand<S>(s: Session<S>, p: Problem)
    requires s.client == |p.quotes| + |p.constraints| <= |s.prob.quotes| + |s.prob.constraints|
  {
    exists i :: 0 <= i < s.client && (
      RowAt(s.prob, i).quote.lower != RowAt(p, i).quote.lower ||
      RowAt(s.prob, i).quote.upper != RowAt(p, i).quote.upper ||
      RowAt(s.prob, i).quote.decay != RowAt(p, i).quote.decay)
  }

  lemma BandsDifferIff<S>(s: Session<S>, p: Problem)
    requires s.client == |p.quotes| + |p.constraints| <= |s.prob.quotes| + |s.prob.constraints|
    ensures |p.Rows()| <= |s.prob.Rows()| && (BandsDiffer(s.prob.Rows(), p.Rows()) <==> MovesABand(s, p))
  {
    RowsAre(s.prob);
    RowsAre(p);
    var rows, src := s.prob.Rows(), p.Rows();
    if i :| 0 <= i < |src| && rows[i].quote.(market := src[i].quote.market) != src[i].quote {
      assert rows[i] == RowAt(s.prob, i) && src[i] == RowAt(p, i);
    }
    if MovesABand(s, p) {
      var i :| 0 <= i < s.client && (
        RowAt(s.prob, i).quote.lower != RowAt(p, i).quote.lower ||
        RowAt(s.prob, i).quote.upper != RowAt(p, i).quote.upper ||
        RowAt(s.prob, i).quote.decay != RowAt(p, i).quote.decay);
      assert rows[i] == RowAt(s.prob, i) && src[i] == RowAt(p, i);
      assert rows[i].quote.(market := src[i].quote.market) != src[i].quote;
    }
  }

  /** The quote half of a rebind replaces the client rows' four numbers and the engine's copy of them; the smoothing
      rows, the rows' kinds and the streamer stay. A band that differs recounts the quotes' bands and asks for a
      re-anchor. */
  lemma LandRebindStores<S>(s: Session<S>, p: Problem)
    requires Coherent(s) && SameStructure(s.prob, s.client, p) && QuotesValid(p.Rows())
    ensures s.client == |p.quotes| + |p.constraints| <= |s.prob.quotes| + |s.prob.constraints|
    ensures var t := LandRebind(s, p);
            && t == s.(prob := t.prob, engine := t.engine, hasBand := t.hasBand, bandsChanged := t.bandsChanged)
            && t.prob.structure == s.prob.structure && |t.prob.quotes| == |s.prob.quotes|
            && |t.prob.constraints| == |s.prob.constraints|
            && (forall i :: 0 <= i < |s.prob.quotes| + |s.prob.constraints| ==>
                  RowAt(t.prob, i) ==
                  Row(if i < s.client then RowAt(p, i).quote else RowAt(s.prob, i).quote, RowAt(s.prob, i).shape))
            && (t.engine.Some? <==> s.engine.Some?) && Mirrors(t.engine, t.prob)
            && (t.bandsChanged <==> s.bandsChanged || MovesABand(s, p))
            && (t.hasBand <==>
                  if MovesABand(s, p)
                  then exists i :: 0 <= i < |p.quotes| && p.quotes[i].quote.upper > p.quotes[i].quote.lower
                  else s.hasBand)
  {
    var t := LandRebind(s, p);
    LandRebindKeeps(s, p);
    CoherentMirrors(t);
    RowsAre(s.prob);
    RowsAre(p);
    RowsAre(t.prob);
    var rows, src := s.prob.Rows(), p.Rows();
    assert t.prob.Rows() == Rebound(rows, src);
    forall i | 0 <= i < |rows|
      ensures RowAt(t.prob, i) ==
              Row(if i < s.client then RowAt(p, i).quote else RowAt(s.prob, i).quote, RowAt(s.prob, i).shape)
    {
      assert RowAt(t.prob, i) == Rebound(rows, src)[i];
    }
    BandsDifferIff(s, p);
    ReboundQuotes(s, p);
    SameBands(t.prob.quotes, p.quotes);
    AnyBandedIff(p.quotes);
  }

  // ---- the solves -----------------------------------------------------------------------------------------

  /** A bare solve runs the kernel from the given seed on the engine's rows and stores its curve, with a report that
      carries the kernel's own verdict, step count and residual and is not marked streamed. It is refused, with nothing
      stored, exactly when there is no engine and some row is unsound. */
  lemma CalibrateStores<S>(k: Kernel<S>, s: Session<S>, x0: Vec)
    requires Coherent(s)
    ensures var n, t := Calibrate(k, s, x0), Calibrate(k, s, x0).session;
            && (n.outcome.Ok? <==> s.engine.Some? || Sound(s.prob))
            && (n.outcome.Refused? ==> t == s && n.outcome.reason == BadProblem)
            && (n.outcome.Ok? ==>
                  && t.engine.Some? && Mirrors(t.engine, s.prob) && (s.engine.Some? ==> t.engine == s.engine)
                  && var r := k.lm(s.resolution, t.engine.value, x0);
                  t == s.(engine := t.engine, x := r.x,
                          report := Solved(r.x, r.converged, false, r.iterations, r.rms)))
  {
    RowsAre(s.prob);
    CalibrateKeeps(k, s, x0);
    CoherentMirrors(s);
  }

  /** Streaming starts at the session's curve and market, at the given tolerance or 1e-9 when that is not positive; the
      tolerance given is remembered, the session is armed, and no band edit is pending. Nothing else changes. */
  lemma StartStores<S>(k: Kernel<S>, s: Session<S>, stepTol: real) returns (q: Vec)
    requires Coherent(s)
    ensures Targets(q, s.prob)
    ensures var n, t := StartStreaming(k, s, stepTol), StartStreaming(k, s, stepTol).session;
            && (n.outcome.Ok? <==> s.engine.Some? || Sound(s.prob))
            && (n.outcome.Refused? ==> t == s && n.outcome.reason == BadProblem)
            && (n.outcome.Ok? ==>
                  && t == s.(engine := t.engine, stream := t.stream, stepTol := stepTol, armed := true,
                             bandsChanged := false)
                  && t.engine.Some? && Mirrors(t.engine, s.prob) && (s.engine.Some? ==> t.engine == s.engine)
                  && t.stream.Some? && Anchored(k, t, t.stream.value, s.x, q)
                  && t.stream.value.tol == if stepTol > 0.0 then stepTol else 0.000000001)
  {
    q := s.prob.Markets();
    RowsAre(s.prob);
    CoherentMirrors(s);
    CollectReads(s.prob);
  }

  lemma CollectReads(p: Problem)
    ensures |Collect(p.Rows())| == |p.quotes| + |p.constraints|
    ensures forall i :: 0 <= i < |p.quotes| + |p.constraints| ==> ReadOff(Collect(p.Rows())[i], RowAt(p, i))
  {
    RowsAre(p);
    forall i | 0 <= i < |p.Rows()| ensures ReadOff(Collect(p.Rows())[i], RowAt(p, i)) {
      assert p.Rows()[i] == RowAt(p, i);
    }
  }

  lemma ResyncAnchors<S>(k: Kernel<S>, s: Session<S>, x: Vec, q: Vec)
    requires s.stream.Some? && s.engine.Some?
    ensures var t := Resync(k, s, x, q);
            && t == s.(stream := t.stream) && t.stream.Some? && t.stream.value.tol == s.stream.value.tol
            && Anchored(k, t, t.stream.value, x, q)
  {
    CollectReads(s.prob);
  }

  /** The streamer a tick on session `s` at market `q` runs on: the live one, or, when a band edit is pending, one
      anchored afresh at the session's curve. */
  ghost predicate Ready<S>(k: Kernel<S>, s: Session<S>, a: Streamer<S>, q: Vec) {
    s.stream.Some? &&
    if s.bandsChanged then a.tol == s.stream.value.tol && Anchored(k, s, a, s.x, q) else a == s.stream.value
  }

  /** The tick of streamer `a` at market `q`. */
  ghost function TickOf<S>(k: Kernel<S>, s: Session<S>, a: Streamer<S>, q: Vec): Tick<S>
    requires s.engine.Some?
  {
    k.tick(s.resolution, a.tol, a.inner, a.table, s.engine.value, a.current, q)
  }

  /** What a converged tick leaves: the streamer and the session on its curve, its step count, the residual given. */
  ghost function Streamed<S>(s: Session<S>, a: Streamer<S>, t: Tick<S>, rms: real): Session<S> {
    s.(x := t.x, report := Solved(t.x, true, true, t.steps, rms), bandsChanged := false,
       stream := Some(Streamer(a.tol, a.table, t.x, t.inner)), lastTick := TickReport(true, t.steps))
  }

  /** What a tick that failed leaves: the solve from `seed`, reported as the kernel reports it, and the streamer
      anchored afresh on its curve. */
  ghost predicate FellBack<S>(k: Kernel<S>, s: Session<S>, tol: real, t: Tick<S>, seed: Vec, q: Vec, end: Session<S>)
    requires s.engine.Some?
  {
    var r := k.lm(s.resolution, s.engine.value, seed);
    && end == s.(x := r.x, report := Solved(r.x, r.converged, false, r.iterations, r.rms), bandsChanged := false,
                 stream := end.stream, lastTick := TickReport(false, t.steps))
    && end.stream.Some? && end.stream.value.tol == tol && Anchored(k, end, end.stream.value, r.x, q)
  }

  /** A tick is refused, with nothing changed, exactly when the market has another length than the streamer's own table,
      or leaves a band of it. */
  lemma TickRefusedIff<S>(k: Kernel<S>, s: Session<S>, q: Vec)
    requires s.stream.Some? && s.engine.Some?
    ensures var n, table := TickOnce(k, s, q), s.stream.value.table;
            && (n.outcome.Ok? <==>
                  |q| == |table| && forall i :: 0 <= i < |q| ==>
                    (table[i].upper > table[i].lower ==> table[i].lower <= q[i] <= table[i].upper))
            && (n.outcome.Refused? ==> n == Next(s, Refused(StreamerRefused)))
  {
  }

  lemma RefreshedIsReady<S>(k: Kernel<S>, s: Session<S>, q: Vec)
    requires Coherent(s) && s.stream.Some?
    ensures var t := Refreshed(k, s, q);
            t.stream.Some? && Ready(k, s, t.stream.value, q) && t == s.(stream := t.stream, bandsChanged := false)
  {
    if s.bandsChanged {
      ResyncAnchors(k, s, s.x, q);
    }
  }

  /** A warm solve on a live streamer, its rows sound: one tick at the session's own targets. Converged, it is committed
      and stamped with the residual evaluated there; failed, the solve runs from the session's curve. */
  lemma ResolveStores<S>(k: Kernel<S>, s: Session<S>) returns (q: Vec, a: Streamer<S>)
    requires Coherent(s) && s.stream.Some? && Sound(s.prob)
    ensures Targets(q, s.prob) && Ready(k, s, a, q)
    ensures var n, t := WarmSolve(k, s), TickOf(k, s, a, q);
            && n.outcome.Ok?
            && if t.converged then n.session == Streamed(s, a, t, k.rms(s.resolution, s.engine.value, t.x))
               else FellBack(k, s, a.tol, t, s.x, q, n.session)
  {
    q := s.prob.Markets();
    RowsAre(s.prob);
    RefreshedIsReady(k, s, q);
    var r := Refreshed(k, s, q);
    a := r.stream.value;
    RefreshedKeeps(k, s, q);
    TickKeeps(k, r);
    var t := TickOnce(k, r, q).session;
    if !t.lastTick.converged {
      var c := Calibrate(k, t, t.x).session;
      ResyncAnchors(k, c, c.x, q);
    }
  }

  /** With no live streamer a warm solve starts one at tolerance 1e-9 and is then the warm solve of the session it has
      started; a resolve never remembers a tolerance. */
  lemma ColdResolveStores<S>(k: Kernel<S>, s: Session<S>)
    requires Coherent(s) && s.stream.None?
    ensures var n := StartStreaming(k, s, 0.0);
            WarmSolve(k, s) == if n.outcome.Ok? then WarmSolve(k, n.session) else n
  {
    StartKeeps(k, s, 0.0);
  }

  /** An accepted streamed update on a live streamer: the targets land on quotes and engine, one tick at them runs, and
      either its curve is committed with the residual the streamer remembers, or the solve runs from the streamer's
      curve. */
  lemma UpdateStores<S>(k: Kernel<S>, s: Session<S>, m: Vec) returns (b: Session<S>, q: Vec, a: Streamer<S>)
    requires Coherent(s) && s.stream.Some? && Sound(s.prob) && SetMarket(s, m).outcome.Ok?
    ensures b == SetMarket(s, m).session && b.engine.Some? && Targets(q, b.prob) && Ready(k, b, a, q)
    ensures var n, t := StreamUpdate(k, s, m), TickOf(k, b, a, q);
            && n.outcome.Ok?
            && if t.converged then n.session == Streamed(b, a, t, k.lastRms(t.inner))
               else FellBack(k, b, a.tol, t, a.current, q, n.session)
  {
    b := CommitTargets(s, m);
    q := b.prob.Markets();
    CommitKeeps(s, m);
    RowsAre(s.prob);
    RowsAre(b.prob);
    RefreshedIsReady(k, b, q);
    var r := Refreshed(k, b, q);
    a := r.stream.value;
    RefreshedKeeps(k, b, q);
    TickKeeps(k, r);
    var t := TickOnce(k, r, q).session;
    if !t.lastTick.converged {
      var u := t.(x := t.stream.value.current);
      var c := Calibrate(k, u, u.x).session;
      ResyncAnchors(k, c, c.x, q);
    }
  }

  /** A streamed update with no live streamer is refused untouched when the session was never armed; otherwise it first
      starts one at the tolerance remembered, before any target lands. */
  lemma ColdUpdateStores<S>(k: Kernel<S>, s: Session<S>, m: Vec)
    requires Coherent(s) && s.stream.None?
    ensures !s.armed ==> StreamUpdate(k, s, m) == Next(s, Refused(NotStreaming))
    ensures s.armed ==>
      var n := StartStreaming(k, s, s.stepTol);
      StreamUpdate(k, s, m) == if n.outcome.Ok? then StreamUpdate(k, n.session, m) else n
  {
    StartKeeps(k, s, s.stepTol);
  }

  /** A four-vector update validates its lengths, then every quote it would make, then the mapped rows, before it moves
      anything; what it then lands is each quote's new band beside its old target, on the quotes, on the engine, and on
      a live streamer's table, in place or, where a row gains or loses its band, at the next anchor. */
  lemma RequoteBandsStores<S>(k: Kernel<S>, s: Session<S>, m: Vec, lower: Vec, upper: Vec, decay: Vec)
    requires Coherent(s) && Requotable(s.prob.quotes, m, lower, upper, decay)
    ensures var t := RequoteBands(k, s, lower, upper, decay);
            && StreamRequote(k, s, m, lower, upper, decay) == StreamUpdate(k, t, m)
            && t == s.(prob := s.prob.(quotes := t.prob.quotes), engine := t.engine, stream := t.stream,
                       hasBand := t.hasBand, bandsChanged := t.bandsChanged)
            && |t.prob.quotes| == |s.prob.quotes|
            && (forall i :: 0 <= i < |s.prob.quotes| ==>
                  t.prob.quotes[i] ==
                  Row(Quote(s.prob.quotes[i].quote.market, lower[i], upper[i], decay[i]), s.prob.quotes[i].shape))
            && (t.engine.Some? <==> s.engine.Some?) && Mirrors(t.engine, t.prob)
            && (t.stream.Some? <==> s.stream.Some?) && (s.bandsChanged ==> t.bandsChanged)
            && (s.stream.None? ==> t.bandsChanged == s.bandsChanged)
            && (s.stream.Some? ==>
                  && t.stream.value.tol == s.stream.value.tol && t.stream.value.current == s.stream.value.current
                  && (t.bandsChanged && !s.bandsChanged ==> t.stream == s.stream)
                  && (!t.bandsChanged && t != s ==>
                        && t.stream.value.inner == k.reband(s.stream.value.inner, t.stream.value.table)
                        && forall i :: 0 <= i < |t.stream.value.table| ==>
                          ReadOff(t.stream.value.table[i], RowAt(t.prob, i))))
  {
    var t := RequoteBands(k, s, lower, upper, decay);
    RequoteBandsKeeps(k, s, m, lower, upper, decay);
    CoherentMirrors(t);
    CollectReads(t.prob);
    RowsAre(t.prob);
    if t == s {
      assert RowBands(s.prob.quotes, lower, upper, decay) == s.prob.quotes;
    }
  }

  /** New fixings, where some observation carries a schedule, are remembered and drop the engine and the streamer and
      nothing else: the next solve builds an engine of the rows and runs at the new fixings, and an armed session's next
      update starts a streamer at the tolerance remembered. Without a schedule nothing changes. */
  lemma FixingsStore<S>(k: Kernel<S>, s: Session<S>, scheduled: bool, resolution: int, x0: Vec, m: Vec)
      returns (rows: seq<Quote>)
    requires Coherent(s)
    ensures Mirrors(Some(rows), s.prob)
    ensures var n, t := ResolveFixings(s, scheduled, resolution), ResolveFixings(s, scheduled, resolution).session;
            && n.outcome.Ok? && (!scheduled ==> t == s)
            && (scheduled ==>
                  && t.resolution == resolution && t.engine.None? && t.stream.None?
                  && t == s.(resolution := t.resolution, engine := t.engine, stream := t.stream) && Coherent(t)
                  && (Sound(s.prob) ==> Calibrate(k, t, x0).session.x == k.lm(resolution, rows, x0).x)
                  && (s.armed ==>
                        var u := StartStreaming(k, t, s.stepTol);
                        StreamUpdate(k, t, m) == if u.outcome.Ok? then StreamUpdate(k, u.session, m) else u))
  {
    RowsAre(s.prob);
    rows := s.prob.Quotes();
    if scheduled {
      ColdUpdateStores(k, ResolveFixings(s, true, resolution).session, m);
    }
  }

  /** What a four-vector update validates, on the numbers it is given. */
  lemma RequotableIff(rows: seq<Row>, m: Vec, lower: Vec, upper: Vec, decay: Vec)
    ensures Requotable(rows, m, lower, upper, decay) <==>
            && |m| == |rows| && |lower| == |rows| && |upper| == |rows| && |decay| == |rows|
            && forall i :: 0 <= i < |rows| ==>
              && (upper[i] == lower[i] || (lower[i] <= m[i] <= upper[i] && 0.0 <= decay[i] <= 1.0))
              && (rows[i].shape.Mapped? ==> upper[i] <= lower[i])
  {
    if Requotable(rows, m, lower, upper, decay) {
      forall i | 0 <= i < |rows|
        ensures (upper[i] == lower[i] || (lower[i] <= m[i] <= upper[i] && 0.0 <= decay[i] <= 1.0))
                && (rows[i].shape.Mapped? ==> upper[i] <= lower[i])
      {
        assert ValidQuote(Quote(m[i], lower[i], upper[i], decay[i]));
      }
    }
  }

  /** A recalibration is the market set, and then the warm solve of the session that leaves. */
  lemma RecalibrateIsSetThenSolve<S>(k: Kernel<S>, s: Session<S>, m: Vec)
    requires Coherent(s)
    ensures var n := SetMarket(s, m);
            Coherent(n.session) && Recalibrate(k, s, m) == (if n.outcome.Ok? then WarmSolve(k, n.session) else n)
  {
    if |m| == |s.prob.quotes| && TargetsInBand(s.prob.quotes, m) {
      CommitKeeps(s, m);
    }
  }

  /** What a rebind compares: the structure, the two counts, and every client row's kind. */
  lemma SameStructureIff<S>(s: Session<S>, p: Problem)
    requires Coherent(s)
    ensures SameStructure(s.prob, s.client, p) <==>
            && p.structure == s.prob.structure && |p.quotes| == |s.prob.quotes|
            && |p.quotes| + |p.constraints| == s.client
            && forall i :: 0 <= i < s.client ==> RowAt(p, i).shape == RowAt(s.prob, i).shape
  {
    RowsAre(p);
    RowsAre(s.prob);
    if |p.Rows()| == s.client {
      assert p.Shapes() == s.prob.Shapes()[..s.client] <==>
        forall i :: 0 <= i < s.client ==> RowAt(p, i).shape == RowAt(s.prob, i).shape by {
        forall i | 0 <= i < s.client
          ensures p.Shapes()[i] == RowAt(p, i).shape && s.prob.Shapes()[..s.client][i] == RowAt(s.prob, i).shape
        {
        }
      }
    }
  }

  /** A rebind is refused untouched when the structure differs or some quote it brings is unsound; otherwise the rows
      land and the warm solve of what they leave follows. */
  lemma RebindIsLandThenSolve<S>(k: Kernel<S>, s: Session<S>, p: Problem)
    requires Coherent(s)
    ensures !SameStructure(s.prob, s.client, p) ==> Rebind(k, s, p) == Next(s, Refused(StructureDiffers))
    ensures SameStructure(s.prob, s.client, p) ==>
      var sound := forall i :: 0 <= i < |p.quotes| + |p.constraints| ==>
        var q := RowAt(p, i).quote;
        q.upper == q.lower || (q.lower <= q.market <= q.upper && 0.0 <= q.decay <= 1.0);
      && (!sound ==> Rebind(k, s, p) == Next(s, Refused(OutOfBand)))
      && (sound ==> Coherent(LandRebind(s, p)) && Rebind(k, s, p) == WarmSolve(k, LandRebind(s, p)))
  {
    RowsAre(p);
    assert QuotesValid(p.Rows()) <==> forall i :: 0 <= i < |p.quotes| + |p.constraints| ==>
      var q := RowAt(p, i).quote;
      q.upper == q.lower || (q.lower <= q.market <= q.upper && 0.0 <= q.decay <= 1.0) by {
      forall i | 0 <= i < |p.Rows()| ensures p.Rows()[i] == RowAt(p, i) {
      }
    }
    if SameStructure(s.prob, s.client, p) && QuotesValid(p.Rows()) {
      LandRebindKeeps(s, p);
    }
  }
}
