# A Dafny model of the rates engine's session, compiler, surface, gates and codec

This project models the parts of the engine where state, search or arithmetic carry the correctness argument, and
proves what they promise. The numerical kernels (the Levenberg-Marquardt solver, the frozen-Newton tick, the calendar
walk, the SABR and Bachelier formulas, `pow` and `exp`) are arbitrary functions of their inputs, so every statement holds
whatever they compute. Numbers are exact reals.

## The parts

- **The streaming session** (`SessionModel`, `SessionProofs`, `SessionTheorems`, `SessionEffects`, `BundleSession`): one problem, one
  lazily built engine holding a copy of its rows, one streamer borrowing the engine. `BundleSessions.BundleSession` is the
  object; each of its methods is proved to take the step of the state machine in `SessionModel`, and the theorems are
  about that machine, over every run. The two requote verbs agree in everything but the reported residual, which one
  re-evaluates and the other takes from its last step (`include/swaps/api/bundle_api.hpp:388-391`). `SessionEffects` says, number
  by number, what each verb stores.
- **The spec compiler** (`CurveOrder`, `CurveDemand`, `KnotLayout`, `KnotMeaning`, `MeetingChain`, `SpecModel`, `SpecDates`,
  `SpecCompiler`, `SpecMeaning`): the order of the curves, knots to regions, meetings to spans, and the references every
  compiled row makes, said in the spec's own ids, currencies and numbers.
- **The vol surface** (`VolModel`, `VolMeaning`, `VolKey`, `VolSurface`, `VolSession`): a pre-indexed sample grid, a flat output
  buffer, a memo on the curve state and a cache keyed by text, against pricing every cell from nothing.
- **The include gate** (`IncludeGraph`), **oracle coverage** (`OracleCoverage`) and **the literal gate's comment
  stripper** (`CommentStripper`).
- **Bond arithmetic** (`BondMath`, `BondNewton`, `BondBatch`): batched Horner with synthetic differentiation and batched
  Newton, against the per-bond loop.
- **The dual number** (`Dual`, `DualCalculus`): the full-width pass, the width-one pass, what the PV01 and gradient readers get,
  and that the partials they are made of are derivatives of the value.
- **The codec** (`CodecModel`, `Codec`, `CodecDefaults`, `CodecWrites`, `BundleCodec`): documents to structs and back,
  recursively through portfolios, and what every decoder makes of every field, there or not.

`dafny verify dfyconfig.toml` checks the whole project.

## Where the code and its comments differ

- The four-vector `stream_update` promises that a refused call changes nothing (`api/bundle_api.cpp:626`). It lands the
  bands before it looks whether the session is armed (`:629`, `:576`) and before a rebuilt engine validates its rows. A call refused
  there has moved the bands, and can leave a quote outside the band it now carries: `SessionTheorems.UnarmedRequoteStrandsTheQuote`
  gives one, `SessionTheorems.RefusedRequoteUnmovedIff` the exact condition.
- A rebind checks the four numbers of each row (`api/bundle_api.cpp:205-210`) but not, as `set_band` does (`:161`), that a
  row with its own penalty map takes no band: `SessionTheorems.RebindBandsAMappedRow`; `SessionTheorems.RebindKeeps` has the condition.
- The warm solve is said to be seeded from the current x (`api/bundle_api.cpp:233`). A bare `calibrate` (`:131-143`) does not
  re-anchor the streamer, whose next tick starts from its own curve: `SessionTheorems.OutOfSyncVerbsDiffer`,
  `SessionTheorems.StepInSyncIff`.
- The constructor's has-band flag counts constraint rows (`api/bundle_api.cpp:112-118`), a band edit recounts quotes only
  (`:165-166`, `:224-225`): `SessionTheorems.FlagForgetsConstraints`; `SessionTheorems.FlagAfterBandEditIff`,
  `SessionTheorems.FlagAfterRebindIff` and `SessionTheorems.FlagAfterRequoteIff` have the conditions.
- Region knots "must strictly increase across regions" (`api/compile.cpp:313`), but a Flat region followed by a Hermite one
  returns before that check: `KnotLayout.FastPathSkipsTheCheck`, with the exact condition in `KnotLayout.LayoutIncreases`.
- A basis row "cannot be quoted against itself" (`api/compile.cpp:591`), which only a named benchmark is checked for:
  `SpecCompiler.SelfQuotedCompiles`, with the exact condition in `SpecCompiler.BenchIsSelfIff`.
- Quoted meetings are "consecutive inter-meeting spans" (`api/compile.cpp:196`) as long as no end but the last moves when it is
  adjusted a second time. The date of a contract code is never rolled (`include/swaps/build/schedule.hpp:64-71`), so one on a
  holiday moves: `MeetingChain.HolidayBreaksTheChain`, with the exact condition in `MeetingChain.TilesIff`.
- "ONE compiled VolSurface per spec SHAPE" (`api/options.cpp:139-141`) is filed under a text. A bar inside an expiry reads as
  the start of the next cell, and the request is only checked when a surface is compiled: `VolSessions.BarBites` has a request
  that a fresh surface refuses and a filed one is read out of bounds for; `VolSessions.VolSession.PriceVolCube` has the exact
  condition, and `VolSessions.VolSession.Run` carries it over every run.
- "Converged bonds self-arrest" (`tools/bond_lever_bench.cpp:141`) holds for a lane that has taken a step, starts left of its
  root, or lands in tolerance with its first step, and for no other: `BondNewton.SelfArrestIff`. The lane that does not,
  `BondNewton.LeavesTolerance`, has a start of 1.2 and a tolerance of three eighths of the price, not the benchmark's own 0.05 and 1e-13.
- "Both paths agree" (`tools/bond_lever_bench.cpp:19`) on yields, lane by lane and pass by pass; they do not stop alike. A lane
  whose first step leaves the positive bases has no price from then on: its own loop runs to the cap
  (`BondNewton.LostRunsToTheCap`), while the batch's maximum passes it over (`BondBatch.OnlySteadyCount`) and reports
  convergence. The benchmark's own starts are not claimed to lose one.
- "A literal" (`tools/check_no_literals.py:91-95`) ends with its line. A raw string or a docstring goes on, and what reads as
  a comment opener on its later lines is taken for one: `CommentStripper.RawStringLosesComment`, `CommentStripper.DocstringIsCut`.

## Model

| member | source | states |
|---|---|---|
| SessionTheorems.RecalibrateIsStreamUpdate | api/bundle_api.cpp:173-180 | on a live streamer whose curve is the session's, recalibrate and stream_update end with the same outcome, quotes, engine rows, streamer, curve and report but for its residual, whether the tick converges, falls back or is refused; the residual agrees too exactly when the one the streamer remembers is the one a re-evaluation gives |
| SessionTheorems.StampsDiffer | api/bundle_api.cpp:249-263 | some kernel makes the two verbs report different residuals on every accepted market |
| SessionProofs.FinishesAgree | api/bundle_api.cpp:594-620 | the two endings, each written as the source has it, leave the same session but for the reported residual after a tick that converged or that failed on the session's own curve |
| SessionTheorems.OutOfSyncVerbsDiffer | api/bundle_api.cpp:131-143 | with a streamer left behind by a bare solve, some kernel tells the two verbs apart on every accepted market, so the sync condition is needed |
| SessionTheorems.ColdRequoteTolerance | api/bundle_api.cpp:242-243 | with no live streamer the verbs restart it at different tolerances: 0 and the session's own |
| SessionTheorems.VerbsAgreeAfterEveryRun | api/bundle_api.cpp:173-180 | after every run without a bare solve the two verbs agree on any market in everything but the reported residual, and in that exactly when the streamer remembers the re-evaluated one |
| SessionTheorems.EveryRunIsCoherent | api/bundle_api.cpp:108-129 | in every reachable state the engine is absent or equals the problem's four numbers on every row, and the smoothing tail is the constructed one |
| SessionTheorems.StepCoherent | api/bundle_api.cpp:145-230 | every call, refused or not, keeps the engine a copy, the rows' kinds, the smoothing tail, and the report on the session's curve |
| SessionTheorems.EveryPrudentRunIsValid | api/bundle_api.cpp:145-169 | along every run of prudent calls each quote stays inside its band with a decay in [0, 1] |
| SessionTheorems.StepValidIff | api/bundle_api.cpp:203-230 | from valid rows a call leaves valid rows if and only if it is prudent: no rebind that bands a mapped row, no requote that cannot stream and excludes a current target |
| SessionTheorems.RefusedStepUnmoved | api/bundle_api.cpp:574-588 | from valid rows, a prudent call that is refused changes no quote, band, engine row or curve (the four-vector form has its own condition) |
| SessionTheorems.RefusedRequoteUnmovedIff | api/bundle_api.cpp:624-631 | a refused four-vector update leaves everything alone exactly when it failed validation or moves no band |
| SessionTheorems.RequoteAcceptedIff | api/bundle_api.cpp:624-631 | a validated four-vector update is accepted exactly when the session can stream; then every quote is the four numbers given |
| SessionTheorems.UnarmedRequoteStrandsTheQuote | api/bundle_api.cpp:574-577 | a concrete refused call that leaves its quote outside its band |
| SessionTheorems.StepInSyncIff | api/bundle_api.cpp:239-258 | the streamer leaves the session's curve through exactly one call, a bare solve that moves it |
| SessionTheorems.ConstructIsCoherent | api/bundle_api.cpp:108-129 | construction accepts exactly the valid problems, appends the smoothing rows after the client's, and starts coherent and in sync |
| SessionTheorems.RebindKeeps | api/bundle_api.cpp:189-230 | a rebind refuses a differing structure or a bad number before anything moves; otherwise the rows are the ones given, valid exactly when the given problem is |
| SessionTheorems.RecalibrateKeeps | api/bundle_api.cpp:173-180 | from valid rows recalibrate is accepted exactly for in-band markets of the right length, then lands them and ends in sync |
| SessionTheorems.RebindBandsAMappedRow | api/bundle_api.cpp:203-229 | a concrete rebind that passes its check, bands a mapped row and is refused only by the engine |
| SessionTheorems.FlagAfterBandEditIff | api/bundle_api.cpp:165-166 | after a band edit the has-band flag is what the constructor would say exactly when the edit sets a band, another quote has one, or no constraint does |
| SessionTheorems.FlagAfterRebindIff | api/bundle_api.cpp:222-227 | after a rebind that moves a band the flag is right exactly when a given quote is banded, or neither a given constraint nor the smoothing tail is; one that moves none leaves the flag as right or wrong as it was |
| SessionTheorems.FlagAfterRequoteIff | include/swaps/calibration/streaming.hpp:1010-1028 | after a four-number requote that moves a band the flag is right exactly when a given band is set or no constraint is banded |
| SessionTheorems.FlagForgetsConstraints | api/bundle_api.cpp:112-118 | a concrete edit that drops the flag while a constraint is banded |
| SessionProofs.SetBandsIsCollect | include/swaps/calibration/streaming.hpp:341-375 | a band move made in place leaves the table a full re-read of the rows would give |
| SessionProofs.SetBandsRefusedIff | include/swaps/calibration/streaming.hpp:341-375 | an in-place move is refused exactly when some row gains or loses its band |
| SessionProofs.RequoteValidity | include/swaps/calibration/streaming.hpp:990-994 | between landing the bands and the targets the rows are valid exactly when the old targets fit the new bands |
| SessionEffects.ConstructStores | api/bundle_api.cpp:108-129 | construction accepts exactly sound rows; the session starts at the curve given, unsolved, with no engine, streamer or pending edit, the client's rows first, then the smoothing rows, and the flag exactly when a client row has a band |
| SessionEffects.SetMarketStores | api/bundle_api.cpp:145-153 | a market is accepted exactly when it has one target per quote and every banded quote's lies in a band whose decay is in [0, 1]; each quote then holds its target and its old band, the engine the same numbers, and nothing else moved |
| SessionEffects.SetBandStores | api/bundle_api.cpp:155-169 | a band edit is accepted exactly when the row is a quote, the band contains its target with a decay in [0, 1] or is none, and the row has no penalty map; the row then holds the old target and the three numbers given, so does the engine's row, and no other row, constraint or engine row moved |
| SessionEffects.LandRebindStores | api/bundle_api.cpp:203-229 | a rebind's rows land number by number on the client's rows and the engine, kinds and smoothing rows kept; a band that differs, and nothing else, recounts the flag over the quotes and asks for a re-anchor |
| SessionEffects.SameStructureIff | api/bundle_api.cpp:189-199 | what a rebind compares: the structure, the two counts and every client row's kind |
| SessionEffects.RebindIsLandThenSolve | api/bundle_api.cpp:203-230 | a rebind is refused untouched for another structure or an unsound quote; otherwise its rows land and the warm solve of what they leave follows |
| SessionEffects.RecalibrateIsSetThenSolve | api/bundle_api.cpp:173-180 | a recalibration is the market set and then the warm solve of the session that leaves |
| SessionEffects.CalibrateStores | api/bundle_api.cpp:131-143 | a bare solve is refused exactly without an engine and with an unsound row; otherwise it stores the kernel's curve from the given seed on the rows' four numbers, and the kernel's own verdict, step count and residual, not marked streamed |
| SessionEffects.StartStores | api/bundle_api.cpp:552-572 | streaming starts at the session's curve and every row's target with each row's band read off it, at the given tolerance or 1e-9, and remembers the tolerance given |
| SessionEffects.TickRefusedIff | include/swaps/calibration/streaming.hpp:393-401 | a tick is refused, nothing changed, exactly when the market has another length than the streamer's table or leaves a band of it |
| SessionEffects.ResolveStores | api/bundle_api.cpp:239-258 | a warm solve on a live streamer is one tick at the session's targets, on the streamer re-anchored at the session's curve if a band edit was pending; a converged one is committed with the residual evaluated there, a failed one is the solve from the session's curve, reported as the kernel reports it, and a fresh anchor at its result |
| SessionEffects.ColdResolveStores | api/bundle_api.cpp:242-243 | with no live streamer a warm solve starts one and is then the warm solve of that session |
| SessionEffects.UpdateStores | api/bundle_api.cpp:574-622 | an accepted streamed update lands the targets and takes one tick at them; a converged one is committed with the residual the streamer remembers, a failed one is the solve from the streamer's curve and a fresh anchor at its result |
| SessionEffects.ColdUpdateStores | api/bundle_api.cpp:574-577 | with no live streamer it is refused untouched if never armed, and otherwise starts one at the tolerance remembered before any target lands |
| SessionEffects.RequotableIff | api/bundle_api.cpp:624-628 | what a four-vector update validates, number by number |
| SessionEffects.RequoteBandsStores | api/bundle_api.cpp:624-631 | what it then lands: each quote's new band beside its old target, on quotes, engine and a live streamer's table, in place or, where a row gains or loses its band, at the next anchor; the rest is the streamed update |
| SessionEffects.FixingsStore | api/bundle_api.cpp:100-106 | scheduled fixings are remembered and drop the engine and the streamer and nothing else, so the next solve runs on a new engine of the rows at the new fixings, and an armed session's next update starts a streamer at the tolerance remembered |
| BundleSessions.BundleSession.SetMarket | api/bundle_api.cpp:145-153 | refused whole, or each target given lands on its quote, its band and kind kept, and on the engine row by row |
| BundleSessions.BundleSession.SetBand | api/bundle_api.cpp:155-169 | refused whole, or the three numbers given land beside the old target on that quote and that engine row and nowhere else; the flag is recounted and the re-anchor left pending |
| BundleSessions.BundleSession.Calibrate | api/bundle_api.cpp:131-143 | the object's step is the machine's; the streamer object is untouched |
| BundleSessions.BundleSession.Recalibrate | api/bundle_api.cpp:173-180 | the object's step is the machine's |
| BundleSessions.BundleSession.WarmSolve | api/bundle_api.cpp:239-258 | the object's step is the machine's on the converged and the fallback path |
| BundleSessions.BundleSession.FinishStream | api/bundle_api.cpp:594-621 | the streamed ending on the object: x off the streamer, then the stamp, or the fallback, the re-anchor and x off the report |
| BundleSessions.BundleSession.StartStreaming | api/bundle_api.cpp:552-572 | the object's step is the machine's; the new streamer borrows the session's engine |
| BundleSessions.BundleSession.StreamUpdate | api/bundle_api.cpp:574-622 | the object's step is the machine's, a dropped streamer rebuilt first |
| BundleSessions.BundleSession.StreamRequote | api/bundle_api.cpp:624-631 | the object's step is the machine's, bands before the armed check |
| BundleSessions.BundleSession.Rebind | api/bundle_api.cpp:189-230 | the object's step is the machine's |
| BundleSessions.BundleSession.ResolveFixings | api/bundle_api.cpp:100-106 | scheduled fixings drop the engine and the streamer that borrows it |
| BundleSessions.BundleSession.Perform | api/bundle_api.cpp:131-258 | any one call on the object is the machine's step |
| BundleSessions.BundleSession.Play | api/bundle_api.cpp:131-258 | any calls on the object leave it where the machine's run ends, so what is proved of every run is proved of the object |
| BundleSessions.StreamingCalibrator.Update | include/swaps/calibration/streaming.hpp:393-401 | a market of another length, or outside a band of the streamer's own table, is refused untouched; otherwise the streamer takes the tick, and only a converged one moves the committed curve |
| BundleSessions.StreamingCalibrator.SetBands | include/swaps/calibration/streaming.hpp:341-375 | all leading bands move in place, or none does |
| CurveOrder.OrderedIff | api/compile.cpp:353-372 | ordering succeeds if and only if every spread base exists and no chain of bases returns |
| CurveOrder.OrderSound | api/compile.cpp:353-372 | the order holds each distinct id once, nothing else, every base before its dependents |
| CurveOrder.BaseComesFirst | api/compile.cpp:518-523 | a curve's base stands at a smaller index, so the later refusal never fires |
| CurveOrder.LaterRowWins | api/compile.cpp:354-355 | of several rows with one id the last is the curve |
| CurveOrder.VisitRefused | api/compile.cpp:358-369 | a refusal exhibits its cause: a base no row has, or a loop of bases |
| CurveOrder.OrderCurves | api/compile.cpp:353-372 | the search with its seen and stack sets and its shared order terminates and gives that order, or that refusal |
| CurveDemand.OrderIsAsAsked | api/compile.cpp:353-372 | one curve stands before another exactly as the rows ask for them: at the first row that leads down to it through bases, and of two first asked for by one row, the one the other is spread off |
| CurveDemand.UnrelatedInRowOrder | api/compile.cpp:370 | curves without bases stand in the order their ids are first met |
| CurveOrder.Orderer.Enter | api/compile.cpp:358-369 | one recursive visit takes the shared sets and order to the specified ones and restores the stack |
| KnotLayout.KnotsConserved | api/compile.cpp:246-321 | the layout's knot times are exactly the items' times |
| KnotLayout.EveryItemLandsOnce | api/compile.cpp:276-283 | with distinct region ids every item goes to exactly one region |
| KnotLayout.LayoutIncreases | api/compile.cpp:284-321 | each region increases strictly; the whole curve does if and only if, where the check across regions is passed over, the items are in order: front before back in the legacy form, and everything homed to a Flat row before everything homed to the Hermite row after it when those are the only two with knots |
| KnotLayout.FastPathSkipsTheCheck | api/compile.cpp:298-307 | a Flat and Hermite layout whose knots do not increase is accepted |
| KnotLayout.SharedIdRefused | api/compile.cpp:265-297 | two region rows with one id and a knot there are always refused |
| KnotLayout.OneKnotPerTime | api/compile.cpp:256-259 | an increasing layout has one knot per distinct item time |
| KnotLayout.CurveLayout | api/compile.cpp:246-321 | the bucketing loops produce that layout, or that refusal |
| KnotMeaning.LegacyMeans | api/compile.cpp:253-263 | without regions, the front holds exactly the times of the items marked for the front, the back all others, both strictly ascending, and no smoothing weight |
| KnotMeaning.LayoutMeans | api/compile.cpp:265-321 | with regions, in this order: an unknown policy is refused; a module per region that got a knot, in row order, with exactly the times of the items that name it or fall to it, under the last row of its id's scheme, tension and weight; no module is refused; Flat before Hermite is the classic curve and keeps the Hermite row's own weight; any others are the layout unless a later module's knot does not come after an earlier's |
| MeetingChain.SpansChain | api/compile.cpp:198-219 | each quoted meeting's span starts at the previous end read back from its date, the first at spot, and ends at its own end |
| MeetingChain.TilesIff | api/compile.cpp:198-219 | the spans tile time in end order exactly when no end but the last moves when adjusted again |
| MeetingChain.HolidayBreaksTheChain | include/swaps/build/schedule.hpp:62-71 | a lawful calendar and two meetings, the first on a contract code that falls on a holiday, whose spans leave a day uncovered |
| MeetingChain.LengthsAddUp | api/compile.cpp:184-192 | tiling spans add up to the last end less the first start |
| MeetingChain.InOrderIs | api/compile.cpp:201-211 | the chain is the resolvable quoted meetings, each as often as it occurs, in order of end |
| MeetingChain.ChainMeetings | api/compile.cpp:198-219 | the collect, sort and hand-over loops produce those start tokens |
| SpecDates.Settle | api/compile.cpp:443-461 | pass 0: every token of a curve resolved once, a quoted meeting's start overridden by the chain, or the curve refused |
| SpecDates.MeetingSettles | api/compile.cpp:176-194 | pass 0 gives a quoted meeting's row the window its chain says |
| SpecDates.SettledIff | api/compile.cpp:174-194 | a row settles exactly when its tokens resolve, and only its window is filled in: the end from its token or the number that stands in, a rate's start from the chain's token, its own or the number, any other's zero; a future's tokens are read as entered, all others rolled |
| SpecDates.ChainHolds | api/compile.cpp:198-211 | the chain holds exactly the quoted plain meetings whose end resolves, each with that end, in order of it |
| SpecCompiler.MeetingWindowCompiles | api/compile.cpp:637-643 | a compiled quoted meeting observes the window from the adjusted end of the meeting before it, the first from spot, to its own later end |
| SpecCompiler.MeetingWindowsAbutIff | api/compile.cpp:443-461 | two consecutive such windows abut if and only if the earlier end does not move when adjusted again |
| SpecCompiler.CompileSpec | api/compile.cpp:398-713 | a spec compiles if and only if its curves can be ordered, their tokens resolve and every pass accepts them in that order, and the bundle is that of its ordered curves, which the next rows spell out in the spec's own ids and numbers |
| SpecCompiler.LaterDraftWins | api/compile.cpp:354-355 | of several curves with one id the last is the one compiled |
| SpecMeaning.InstrumentsMean | api/compile.cpp:570-699 | the compiled instruments, starts and drifts list every quoting row once, curve by curve and row by row: each of its own kind, with its own target, start, drift and band, and with the curves it means in their places |
| SpecMeaning.BuiltIsCompiled | api/compile.cpp:579-698 | of one row, kind by kind: a par spread has the curve it names, or its curve's base, or the discount curve second and the discount curve third; a par rate, zero coupon rate and portfolio have the discount curve second; an FX forward its `fx_den` second; a cross-currency basis its benchmark second and its `fx_den` third; the discount curve is the first outright one of the currency, or of the spec when the currency has none |
| SpecMeaning.OneStanding | api/compile.cpp:580-593 | the places a row's curves stand in are the only ones that fit |
| SpecMeaning.BuildsIff | api/compile.cpp:579-694 | a row builds exactly when its builder's demands, its band, the curves it names and the window filed under its key are in order: the last turn row's window with that key, or else the last row's |
| SpecMeaning.CompilesIff | api/compile.cpp:420-702 | an ordered spec passes exactly when some curve is outright, every curve lays out, some row quotes and every quoting row can be built |
| SpecMeaning.CurvesMean | api/compile.cpp:463-568 | a compiled curve has the base its row names at a smaller index, one turn per turn row in order, and the layout of exactly the knots its rows give, each at its window's end with the region and side it asks for |
| SpecMeaning.LaysIff | api/compile.cpp:489-525 | a curve lays out exactly when it names a currency, its rows give some knot, every knot lies after the value date, and those knots have a layout |
| SpecMeaning.TurnPinned | api/compile.cpp:475-487 | a turn jump pins, by its place among the curve's turns, the turn of the last turn row with its key |
| SpecMeaning.KnotCountIs | api/compile.cpp:705-706 | the knot count is one for every knot and one for every turn of every curve |
| SpecMeaning.CodesInOrder | api/compile.cpp:424-438 | currencies are numbered by first use: those of the outright curves first, each at its first outright curve, then the others' |
| SpecCompiler.Passes | api/compile.cpp:424-713 | on ordered curves the passes succeed exactly when some curve is outright, every curve lays out and every quoting row builds |
| SpecCompiler.RolesInRange | api/compile.cpp:598-697 | every role of a row names a compiled curve, the first its own, and its start is its instrument's target |
| SpecCompiler.DiscIsOutright | api/compile.cpp:434-438 | a discount curve is outright, and the first in its currency whenever its currency has one |
| SpecCompiler.BenchIsSelfIff | api/compile.cpp:582-593 | a benchmark is the row's own curve exactly when unnamed on a curve with no base that is its own discount root |
| SpecCompiler.SelfQuotedCompiles | api/compile.cpp:582-593 | a one-curve spec that compiles, its basis instrument quoted against itself |
| SpecCompiler.TagsInvert | api/compile.cpp:424-433 | a curve's code is its currency, codes never repeat, and each is some curve's |
| SpecCompiler.JumpPinsItsOwnTurn | api/compile.cpp:475-487 | with unique keys a turn row quoted as a jump pins the turn built from its own row |
| SpecCompiler.RateWindowIsOwn | api/compile.cpp:637-643 | with unique keys a rate row is built on its own window, which ends after it starts |
| SpecCompiler.BasesAndBands | api/compile.cpp:136-142 | every base stands before its curve and every banded target lies in its band with a decay in [0, 1] |
| SpecCompiler.Topology | api/compile.cpp:463-568 | pass 1 gives each curve its base, tag, layout and turns, or refuses exactly when a curve does not lay out |
| SpecCompiler.Instruments | api/compile.cpp:570-699 | pass 2's three lists run parallel to the quoting rows, curve by curve (`SpecMeaning.InstrumentsMean` says what each entry is) |
| VolModel.OneOwner | api/options.cpp:269-280 | the cells' output ranges partition the positions: each belongs to exactly one cell |
| VolModel.PointsAtOffset | api/options.cpp:329-360 | the flat output read at a cell's offset is that cell's own points |
| Grids.LowerBoundHits | api/options.cpp:265-268 | a time on the sorted grid is found exactly |
| Grids.Sorts | include/swaps/curve/curve_module.hpp:267-270 | sorting and dropping duplicates keeps exactly the values, strictly increasing |
| VolKey.KeyIffShape | api/options.cpp:149-155 | requests a surface can be compiled from share a key if and only if they share a shape, whatever their currency text |
| VolKey.BarCollides | api/options.cpp:151-154 | every request of two cells or more shares its key with one of a cell fewer, the bar between two cells moved into an expiry text |
| VolSurfaces.CompiledForward | api/options.cpp:318-325 | a forward swap read off the one grid sample at a cell's positions is the one asked of the curve at its dates |
| VolSurfaces.Arrange | api/options.cpp:261-280 | grid positions hit their own times and offsets are the running counts |
| VolSurfaces.PriceCell | api/options.cpp:330-360 | a cell's strikes, moneyness strikes and ATM point are written at its offset and nowhere else |
| VolSurfaces.WriteCells | api/options.cpp:330-360 | the output loop over any cells writes each compiled cell's points over what was there, or reads past the cells or writes past the output |
| VolSurfaces.WrittenIsDirect | api/options.cpp:330-360 | on cells of the compiled shape the whole output is overwritten, with every cell's own points |
| VolSurfaces.VolSurface.Reprice | api/options.cpp:306-363 | a reprice is what the output loop writes at the given state, whatever the memo held, its schedules those of the cells' own expiries and tenors, its forwards theirs on the kernel's discounts; on cells of the surface's own shape it is the cube, cell by cell and point by point |
| VolMeaning.CubeAtIs | api/options.cpp:306-360 | a cube priced from nothing: each cell's annuity is the accrual-weighted sum of its payment discounts, its rate times that is the discount lost between start and last payment (zero when the annuity is not positive), and its points are its strikes, its moneynesses above the rate and the rate itself, each with its vol, side and Bachelier numbers |
| VolMeaning.AnnuityAdds | include/swaps/vol/swaption.hpp:23-28 | over a schedule in two parts the annuity is the sum of the parts'; one payment's is its accrual times its discount |
| VolMeaning.AnnuityIsLinear | include/swaps/vol/swaption.hpp:23-28 | it is linear in the discounts |
| VolSurfaces.VolSurface.SetSabr | api/options.cpp:295-304 | a list of another length is refused; otherwise every cell takes its alpha and the shared rho and nu |
| VolSessions.VolSession.PriceVolCube | api/options.cpp:147-161 | a cube through the cache is the cube, or the refusal, of a surface built for this request alone if and only if a surface can be built from the request, it names no index, or its key is not yet filed; it then answers exactly when the request names an index, its product opens, its cells resolve and its curve is there, and with the request's own cube on the kernel's discounts |
| VolMeaning.DirectCubeAnswers | api/options.cpp:239-292 | a request priced from nothing is answered exactly under those four conditions, with that cube |
| VolSessions.VolSession.EverySurfaceIsProper | api/options.cpp:157-158 | whatever was asked for, every filed surface was compiled from a proper request, so proper requests always find their own shape |
| VolSessions.VolSession.Run | api/options.cpp:147-161 | over every run of any requests and curve moves, each answer is the one priced from nothing if and only if that guard holds at that point |
| VolSessions.VolSession.MergedIsCutShort | api/options.cpp:156-161 | in any session that holds a surface for a request of two cells or more, on a curve there is, the request with two neighbouring cells merged finds that surface and is read past the end of its cells |
| VolSessions.BarBites | api/options.cpp:147-161 | in any session, a run that prices a request of two cells or more and then the one with two of them merged: the first is safe, the second is not, and the direct answer to it is a refusal |
| VolSessions.ProperRunIsSafe | api/options.cpp:147-161 | every request of a run of proper requests is safe, so all its answers are the ones priced from nothing |
| VolSessions.TradeAddress | api/options.cpp:216-232 | positions 2ci and 2ci + 1 of the cube are trade ci's own strike and ATM points |
| VolSessions.Swaption | api/options.cpp:170-237 | the verb reports each trade as if priced alone, off the forward swap of its own schedule on the kernel's discounts, and refuses an unnamed expiry or tenor |
| IncludeGraph.CyclesExactlyOnce | tools/check_include_graph.py:70-86 | the list is exactly the simple cycles written from their least node, without repeats |
| IncludeGraph.EveryCycleListedOnce | tools/check_include_graph.py:70-86 | every simple cycle, from whichever node it is written, is listed at exactly one place under exactly one rotation |
| IncludeGraph.CyclesInOrder | tools/check_include_graph.py:77-86 | the cycles are listed in order of their first differing node |
| Ordering.LessIff | tools/check_include_graph.py:78-84 | node names are compared in code-point order: the first difference decides, and a beginning of the other comes first |
| IncludeGraph.EmptyIffAcyclic | tools/check_include_graph.py:100-118 | the list is empty if and only if no closed walk exists |
| IncludeGraph.SimpleCycleInWalk | tools/check_include_graph.py:70-86 | every closed walk contains a simple cycle |
| IncludeGraph.WalkSound | tools/check_include_graph.py:77-82 | one walk appends only returns to its start through fresh larger nodes |
| IncludeGraph.WalkComplete | tools/check_include_graph.py:77-82 | one walk appends every such return |
| IncludeGraph.CycleSearch.Walk | tools/check_include_graph.py:77-82 | the recursion with its shared list terminates and appends exactly those paths |
| IncludeGraph.CycleSearch.Run | tools/check_include_graph.py:84-86 | the whole search leaves that list |
| IncludeGraph.Verdict | tools/check_include_graph.py:98-126 | the gate passes if and only if every edge is declared and the graph is acyclic |
| OracleCoverage.Closure | tools/oracle_coverage.py:55-69 | the worklist terminates and finds exactly the swaps/ names some reachable file includes, resolved or not |
| OracleCoverage.HeaderReach | tools/oracle_coverage.py:72-78 | the closures of the registered tests, inverted |
| OracleCoverage.ListedIff | tools/oracle_coverage.py:72-78 | a test is listed under a header if and only if it reaches that header |
| OracleCoverage.CheckLock | tools/oracle_coverage.py:185-207 | the gate passes if and only if the matcher's selftest found nothing, there is a lock and every locked header is still reached |
| OracleCoverage.Resolve | tools/oracle_coverage.py:47-52 | an include resolves exactly when one of its four places exists |
| OracleCoverage.ResolvesInOrder | tools/oracle_coverage.py:47-52 | and to the first of include/, tests/, api/ and the root under which it exists |
| CommentStripper.LinesStay | tools/check_no_literals.py:84-101 | line k of the output is line k of the source with comment left out, so reported line numbers are the source's |
| CommentStripper.StripCpp | tools/check_no_literals.py:84-101 | the index loop keeps exactly the characters the reference lexer does not mark as comment |
| CommentStripper.LiteralIsKept | tools/check_no_literals.py:91-95 | a literal that ends on its line is kept as it stands, whatever comment openers its body spells, and what follows its end is read as code |
| CommentStripper.RawStringLosesComment | tools/check_no_literals.py:91-97 | of a raw string that spells a line comment on a later line, the comment is dropped |
| CommentStripper.LineCommentGoes | tools/check_no_literals.py:96-97 | a line comment goes up to its newline, whatever quotes or block openers it spells |
| CommentStripper.BlockCommentGoes | tools/check_no_literals.py:87-90 | a block comment leaves its newlines and nothing else |
| CommentStripper.StripsByGrammar | tools/check_no_literals.py:84-101 | on any text spelled from literals, comments and other characters, the output is those tokens with each comment reduced to its newlines |
| CommentStripper.StripTwice | tools/check_no_literals.py:84-101 | stripping the output again drops nothing |
| CommentStripper.CutAtFirstBareHash | tools/check_no_literals.py:68-83 | a Python line is kept up to its first hash outside every literal of that line, or whole when there is none |
| CommentStripper.DocstringIsCut | tools/check_no_literals.py:70-83 | a docstring's line that spells a hash is cut at it |
| CommentStripper.StripComments | tools/check_no_literals.py:67-101 | both languages give one output line per source line, each a thinning of the same-numbered one |
| BondMath.FastFormIsReference | tools/bond_lever_bench.cpp:117-138 | one power times the padded Horner value, and the chained derivative, equal the per-cashflow price and slope |
| BondMath.HornerIsPoly | tools/bond_lever_bench.cpp:123-130 | the column sweep leaves the polynomial, its derivative and half its second derivative |
| BondMath.PaddingIsHarmless | tools/bond_lever_bench.cpp:59-60 | zero coefficients past a bond's last cashflow change none of the three |
| BondNewton.Bernoulli | tools/bond_lever_bench.cpp:133-141 | an integer power lies above its tangent |
| BondNewton.PriceTangent | tools/bond_lever_bench.cpp:69-81 | for non-negative flows the price lies above each of its tangents, from the law at exponents up to one and Bernoulli for the whole periods |
| BondNewton.SlopeNegative | tools/bond_lever_bench.cpp:69-81 | the price falls strictly wherever some flow is positive |
| BondNewton.StepLands | tools/bond_lever_bench.cpp:141 | a step whose base stays positive lands at or below the root |
| BondNewton.StepRises | tools/bond_lever_bench.cpp:141 | from at or below the root a step rises and does not increase the residual |
| BondNewton.IteratesRise | tools/bond_lever_bench.cpp:133-141 | from the first landing on, iterates rise and residuals fall towards zero |
| BondNewton.SelfArrestIff | tools/bond_lever_bench.cpp:141 | a lane in tolerance at a pass stays in tolerance at every later one if and only if it has taken a step, starts left of its root, or its first step lands in tolerance |
| BondNewton.LeavesTolerance | tools/bond_lever_bench.cpp:141 | whatever the power function, a one-flow bond started right of its root that is in tolerance at the first pass and out of it at the second |
| BondNewton.SteadyIff | tools/bond_lever_bench.cpp:118-142 | the first step keeps the base positive exactly when the starting residual exceeds twice the base times the slope; from left of the root always |
| BondNewton.StepsOffTheBases | tools/bond_lever_bench.cpp:118-142 | a start so far right that its first step lands on base 0 |
| BondNewton.EveryStartCanBeLost | tools/bond_lever_bench.cpp:118-142 | for every bond and start some target loses the lane at its first step |
| BondNewton.PricedForeverIff | tools/bond_lever_bench.cpp:118-142 | a lane has a price at every pass if and only if its first step keeps the base positive |
| BondNewton.LostRunsToTheCap | tools/bond_lever_bench.cpp:102-112 | the per-bond loop of a lost lane runs to the cap, unless it started in tolerance |
| BondBatch.NaiveValue | tools/bond_lever_bench.cpp:70-81 | the cashflow loop computes the reference price and slope |
| BondBatch.ScalarNewton | tools/bond_lever_bench.cpp:102-112 | from any start the per-bond loop stops at the first yield in tolerance, or the cap, a yield without a price never being one |
| BondBatch.Universe.constructor | tools/bond_lever_bench.cpp:41-66 | the two column-major matrices hold every bond's flows and exponents at their places, padded with zeros |
| BondBatch.HornerPass | tools/bond_lever_bench.cpp:123-130 | the three lane arrays end with each lane's polynomial, derivative and half second derivative |
| BondBatch.Evaluate | tools/bond_lever_bench.cpp:119-138 | one batched pass gives every lane that has a price the per-bond price and slope, and the others none |
| BondBatch.Pass | tools/bond_lever_bench.cpp:118-142 | one batched pass stops exactly when every lane that has a price is in tolerance, and otherwise takes every lane to its own next yield |
| BondBatch.BatchedNewton | tools/bond_lever_bench.cpp:118-142 | from any starts every lane of the batch is at its own scalar yield, and the loop stops at the first pass with every lane that has a price in tolerance |
| BondBatch.LaneAtBatchStop | tools/bond_lever_bench.cpp:141 | a lane carried past its own stop is still in tolerance if it took a step or arrests, and from left of its root it ends at a yield no lower and a residual no larger |
| BondBatch.OnlySteadyCount | tools/bond_lever_bench.cpp:133-141 | from the second pass on the stopping test looks at the lanes whose first step kept a price, and at no other |
| BondBatch.BatchStopsWithSlowestLane | tools/bond_lever_bench.cpp:133-141 | when no lane is lost and every lane in tolerance from the start arrests, the batch stops exactly when its slowest lane does |
| BondBatch.BatchStopsIff | tools/bond_lever_bench.cpp:118-142 | with no such guard: a batch that does not stop at once stops exactly when every lane not lost, looked at from its first step on, has come into tolerance |
| Duals.FullPassIsGradient | include/swaps/ad/dual.hpp:16-21 | the full-width pass gives the plain value and, slot by slot, the symbolic partials |
| Duals.DirectionalPassIsDot | include/swaps/ad/dual.hpp:63-74 | the width-one pass along u gives the u-weighted sum of the partials |
| Duals.ParallelPassIsTotal | include/swaps/ad/dual.hpp:51-61 | the all-ones pass gives the sum of the partials |
| Duals.EmptyMeansConstant | include/swaps/ad/dual.hpp:26-29 | an empty derivative vector is left only where every partial is zero |
| Duals.SlotIsDirectional | include/swaps/ad/dual.hpp:4-7 | whatever the seeds, a derivative slot is the gradient along the seeds' column |
| Duals.Seed | include/swaps/ad/dual.hpp:16-21 | knot i carries its value and the i-th unit vector (the pooled seed is the same) |
| Duals.SeedDirectional | include/swaps/ad/dual.hpp:65-74 | knot i carries its value and the i-th component of the direction |
| Duals.SeedParallel | include/swaps/ad/dual.hpp:56-61 | every knot carries its value and one |
| Duals.Pv01 | api/bundle_api.cpp:399-406 | the PV01 is one basis point of the gradient along the parallel direction, zero for a constant book; that gradient is the derivative of `DualCalculus.GradientIsDerivative` |
| Duals.CurveGrad | api/bundle_api.cpp:482-493 | the risk pass reports the value and the whole gradient, zeros for a constant book; each entry is the derivative of `DualCalculus.PartialIsDerivative` |
| Duals.Pv01FromGradient | api/bundle_api.cpp:478-494 | the one-pass PV01 and the gradient pass agree |
| DualCalculus.GradientIsDerivative | api/bundle_api.cpp:478-491 | the gradient is the value's derivative: for every expression, point where it is defined and direction there are a constant c and a radius within which every step h keeps it defined and moves its value by h times the gradient dotted with the direction, to within c h h |
| DualCalculus.PartialIsDerivative | include/swaps/ad/dual.hpp:4-7 | moving one knot alone, the partial in that knot is the derivative, in the same sense |
| DualCalculus.QuotientMultipliesBack | include/swaps/ad/dual.hpp:23-32 | where it is defined, a quotient times its divisor is its dividend |
| Codec.ObsRoundTrip | api/codec.cpp:190-216 | an encoded observation decodes to its normal form, which encodes to the same document |
| Codec.CouponRoundTrip | api/codec.cpp:217-236 | so does a coupon, and it accrues over the same period; what a hand-written document decodes to is in `CodecDefaults.CouponReads` |
| Codec.LegRoundTrip | api/codec.cpp:248-258 | so does a float leg |
| Codec.FixedLegRoundTrip | api/codec.cpp:259-265 | a fixed leg decodes to itself |
| Codec.RegionRoundTrip | api/codec.cpp:415-422 | a region keeps its tension only on a Tension scheme and its smoothing weight only when set |
| Codec.DecodedRegionIsNormalIff | api/codec.cpp:266-301 | a decoded region is its own normal form exactly when it has no tension off a Tension scheme and no negative smoothing weight but the unset one |
| Codec.HandWrittenRegionIsNotNormal | api/codec.cpp:266-301 | a Flat region that gives a tension decodes to a value that is not its normal form |
| Codec.CurveRoundTrip | api/codec.cpp:266-301 | an encoded curve decodes to its normal form, which encodes to the same document |
| Codec.LegacyReadsAsRegions | api/codec.cpp:296-299 | a meeting/back document reads as the two-region layout and is written as regions ever after |
| BundleCodec.PenaltyRoundTrip | api/codec.cpp:464-475 | a penalty map of up to three breakpoints decodes to itself |
| BundleCodec.InstrumentRoundTrip | api/codec.cpp:443-542 | an encoded instrument decodes to its normal form at every depth of its portfolio, and encode after decode after encode is encode |
| BundleCodec.ComponentsRoundTrip | api/codec.cpp:487-494 | so do a portfolio's weighted components |
| BundleCodec.BundleRoundTrip | api/codec.cpp:544-573 | an encoded bundle decodes to its normal form, which encodes to the same document |
| BundleCodec.NormalFormIsFixed | api/codec.cpp:544-573 | normalising twice is normalising once |
| BundleCodec.DocumentSettles | api/codec.cpp:544-573 | every document the decoder accepts settles after one trip: what it decodes to is encoded as a document that decoding and encoding leave unchanged |
| CodecDefaults.DayReads | api/codec.cpp:204-214 | a fixing day is read exactly when each field present is a number (a whole one read as that real) and each missing or null one stands at the struct's default: weight 1, all others 0 |
| CodecDefaults.ObsReads | api/codec.cpp:190-216 | likewise an observation: realized factor 1, not compounded, empty lists and index, all others 0; whether it was resolved is never read |
| CodecDefaults.CouponReads | api/codec.cpp:217-236 | likewise a coupon: scale 1, reset time and reset FX -1, all others 0; its accrual period is set exactly when both ends are there, its FX fixing exactly when its time is |
| CodecDefaults.FixedCouponReads | api/codec.cpp:237-243 | likewise a fixed coupon: scale 1, all others 0 |
| CodecDefaults.LegReads | api/codec.cpp:248-258 | likewise a float leg: reset roles -1, FX spot 1, all others 0 |
| CodecDefaults.FixedLegReads | api/codec.cpp:259-265 | likewise a fixed leg: discount role 0 |
| CodecDefaults.RegionReads | api/codec.cpp:275-285 | likewise a region: Hermite, tension 0, smoothing weight -1; the retired tension weight is refused unless it is negative |
| CodecDefaults.TurnReads | api/codec.cpp:289-295 | likewise a turn: start and end 0 |
| CodecDefaults.CurveReads | api/codec.cpp:266-301 | likewise a curve: base -1, currency 0, index tenor -1, its own regions or else a Flat piece over the legacy meeting knots and a Hermite one over the back knots, an empty piece left out |
| CodecDefaults.RefReads | api/codec.cpp:479-486 | likewise a state reference: curve and index 0, coefficient 1 |
| CodecDefaults.PenaltyReads | api/codec.cpp:464-475 | a penalty map decodes to the two lists given |
| CodecDefaults.PenaltyAcceptedIff | api/codec.cpp:464-475 | it is accepted exactly with both lists, at most three breakpoints and one slope more |
| CodecDefaults.InstrumentReads | api/codec.cpp:443-496 | likewise an instrument: ParRate, FX roles -1, FX spot 1, band decay 1, all other numbers 0, nested parts that are missing at their own defaults |
| CodecDefaults.ComponentReads | api/codec.cpp:488-494 | a component needs its instrument; its weight is 1 when missing |
| CodecDefaults.BundleReads | api/codec.cpp:544-556 | a bundle's four lists are each empty when missing |
| CodecDefaults.OnlyObjectsDecode | api/codec.cpp:443-496 | no decoder accepts anything but an object |
| CodecDefaults.EmptyDocuments | api/codec.cpp:190-265 | the empty document decodes to the struct as constructed: observation, coupons, legs, region, turn, state reference |
| CodecDefaults.EmptyCurveAndBundle | api/codec.cpp:266-301 | so does the empty curve and the empty bundle |
| CodecDefaults.EmptyInstrument | api/codec.cpp:443-496 | so does the empty instrument |
| CodecDefaults.DayDefaults | api/codec.cpp:45-52 | writing every default in where a fixing day's document has no such field, or null, changes nothing it decodes to, refusals included |
| CodecDefaults.ObsDefaults | api/codec.cpp:45-69 | so it is for an observation |
| CodecDefaults.CouponDefaults | api/codec.cpp:217-236 | for a coupon, but for the fields whose presence is itself read |
| CodecDefaults.FixedCouponDefaults | api/codec.cpp:237-243 | for a fixed coupon |
| CodecDefaults.LegDefaults | api/codec.cpp:248-258 | for a float leg |
| CodecDefaults.FixedLegDefaults | api/codec.cpp:259-265 | for a fixed leg |
| CodecDefaults.RegionDefaults | api/codec.cpp:275-285 | for a region |
| CodecDefaults.TurnDefaults | api/codec.cpp:289-295 | for a turn |
| CodecDefaults.RefDefaults | api/codec.cpp:479-486 | for a state reference |
| CodecDefaults.ComponentDefaults | api/codec.cpp:488-494 | for a component |
| CodecDefaults.CurveDefaults | api/codec.cpp:266-301 | for a curve |
| CodecDefaults.InstrumentDefaults | api/codec.cpp:443-496 | for an instrument |
| CodecDefaults.SchemeWords | api/codec.cpp:130-140 | each scheme goes by one word and no other |
| CodecDefaults.QuoteWords | api/codec.cpp:112-124 | each quote kind goes by one word and no other |
| CodecWrites.ObsWrites | api/codec.cpp:329-355 | an observation's document has exactly the nine plain fields, and index and schedule when it has a schedule |
| CodecWrites.CouponWrites | api/codec.cpp:356-376 | a coupon's has its accrual dates only when they are set and are not its observation window, its FX reset only when it has one, its FX fixing time only when that is set |
| CodecWrites.LegWrites | api/codec.cpp:384-396 | a leg's has its FX spot time only when it is not zero |
| CodecWrites.RegionWrites | api/codec.cpp:415-422 | a region's has a tension only on a Tension scheme and a smoothing weight only when set |
| CodecWrites.CurveWrites | api/codec.cpp:405-436 | a curve's always has regions, its index tenor only when positive and its turns only when it has some |
| CodecWrites.InstrumentWrites | api/codec.cpp:498-542 | an instrument's has FX spot time, penalty map, state references and components only when it has them |
| CodecWrites.BundleWrites | api/codec.cpp:558-573 | a bundle's has constraints and currency codes only when it has some |

## Left out

- Non-finite numbers: the checks for them (`api/bundle_api.cpp:148`, `:157`, `:207`, `:583`) have no counterpart over exact reals, and neither has floating-point rounding. In the bond solves a price at a base that is not positive is no value, of which every test is false and which the maximum passes over.
- The report's status text, stationarity and timing fields, tick telemetry beyond convergence and step count, and running averages. A residual is one number, not a vector.
- The stamped overload of rebind, which trusts a stamp where the plain one compares structure; the structure is one opaque value here. A session that reads row kinds beyond plain, FX forward and mapped.
- The kernels: what the solver, the tick and the anchor compute, and a solver that throws. The bound-book twin and its freshness.
- BondMath.FastFormIsReference: takes the laws of a real power as assumptions (splitting off whole periods, and lying above its tangent for an exponent between 0 and 1), because no real power is defined here.
- BondBatch.ScalarNewton: takes bonds whose first cashflow falls strictly within a period, as the universe's do, since a whole exponent would have a value at a negative base.
- BondBatch.HornerPass: a lane without a price carries a stand-in through the sweep where the source carries a non-number.
- BondBatch.Universe.constructor: takes the bonds as given; the benchmark's own made-up universe and its value-only repricing loop are absent.
- The vol surface's eleven output columns are one array of records, and the forward and annuity columns one array of pairs; the price_us clock is absent. A surface repriced against a second session is not modelled: the memo compares curve states only.
- VolSessions.VolSession.PriceVolCube: an index past the end of a list is one outcome, because the source promises nothing after it. It rests on `VolKey.Lawful`: the resolvers refuse tokens with a separator (`include/swaps/build/date.hpp:32-110`, `include/swaps/conventions_data.hpp:1118-1127`), and no index is registered under a name with a bar, which the registry does not check.
- VolSessions.Swaption: starts from a calibrated curve state; the bundle parsing and calibration before it are absent. The SABR strip verb.
- SpecCompiler.CompileSpec: conventions, unit conversion and required fields of a row are one flag, and turn windows, portfolio knots and components arrive resolved; refusal messages are not distinguished. The rounding of knot times to ten decimals, the display grid, P15 warnings, the smoothing migration and the resolved-window listing are absent.
- SpecDates.Settle: resolving a token and adjusting a day are given functions.
- KnotLayout.CurveLayout: a policy word arrives looked up in the scheme table and a knot_region word as front or not; the display string of policies is absent.
- MeetingChain.TilesIff: dates are day numbers and curve time is not rescaled by 365; the sort of equal ends is left to the distinctness condition.
- BundleSessions.BundleSession.ResolveFixings: whether any observation carries a schedule, and what the fixings resolve to, are given.
- OracleCoverage.CheckLock: what the matcher's selftest found is given.
- OracleCoverage.HeaderReach: the registry and the include lines are given, not read from text; the verb table and its matcher are absent.
- IncludeGraph.Verdict: edges are given as sets, not read from files; stale arrows are a warning only.
- CommentStripper.StripComments: the pattern matching that follows it, and the allow-list.
- CommentStripper.LiteralIsKept: literals that end on their line; of one that goes on, `CommentStripper.RawStringLosesComment` says what is lost.
- CommentStripper.CutAtFirstBareHash: literals of one line, for the same reason.
- DualCalculus.GradientIsDerivative: takes it as an assumption that `exp` is its own derivative (`OwnDerivative`), because no exponential is defined here.
- Codec.ObsRoundTrip: documents are values over an enumeration of field names, so JSON text, unknown fields, and the 32-bit cast of integers are absent. Encoders and decoders are functions where the source fills structs in place.
- BundleCodec.PenaltyRoundTrip: the unused tail of the source's fixed-size arrays is not represented.
- The book, exposure, scenario, bond and credit codecs, which decode requests around kernels that are not part of this model.
