/** Instruments, recursively through a portfolio's components, and whole bundles (api/codec.cpp). */
module BundleCodec {
  import opened Codec
  import opened CodecModel
  import opened Curves
  import opened Wrappers

  // ---- penalty maps and state references ----

  function PenaltyTo(p: PenaltyMap): Json {
    Obj(map[Breaks := Reals(p.breaks), Slopes := Reals(p.slopes)])
  }

  /** Both lists are required; too many breakpoints, or slopes that do not match them, are refused. */
  function PenaltyFrom(j: Json): Read<PenaltyMap> {
    var o :- AsObj(j);
    var breaks :- if Breaks in o then AllReals(o[Breaks]) else Thrown;
    var slopes :- if Slopes in o then AllReals(o[Slopes]) else Thrown;
    if |breaks| > MAX_BREAKS || |slopes| != |breaks| + 1 then Thrown else Got(RawPenalty(breaks, slopes))
  }

  lemma PenaltyRoundTrip(p: PenaltyMap)
    ensures PenaltyFrom(PenaltyTo(p)) == Got(p)
  {
    ReadsReals(p.breaks);
    ReadsReals(p.slopes);
  }

  function RefTo(r: StateRef): Json {
    Obj(map[CurveKey := Int(r.curve), IndexKey := Int(r.index), Coeff := Num(r.coeff)])
  }

  function RefFrom(j: Json): Read<StateRef> {
    var o :- AsObj(j);
    var curve :- IntAt(o, CurveKey, 0);
    var index :- IntAt(o, IndexKey, 0);
    var coeff :- RealAt(o, Coeff, 1.0);
    Got(StateRef(curve, index, coeff))
  }

  lemma RefsRead(rs: seq<StateRef>)
    ensures ReadAll(Mapped(rs, RefTo), RefFrom) == Got(rs)
  {
    var back := (r: StateRef) => r;
    ReadsAll(rs, RefTo, RefFrom, back);
    assert Mapped(rs, back) == rs;
  }

  // ---- one instrument, around its parts ----

  /** The documents of an instrument's nested parts. */
  datatype Parts = Parts(fwd: Json, bench: Json, fixed: Json, mtm: Json, obs: Json, penalty: Json, state: Json,
                         combination: Json)

  /** What the nested parts read as. */
  datatype Nested = Nested(fwd: FloatLeg, bench: FloatLeg, fixed: FixedLeg, mtm: FloatLeg, obs: Observation,
                           penalty: Option<PenaltyMap>, state: seq<StateRef>, combination: seq<Weighted>)

  function Numbers(ins: Instrument): Fields {
    var o := map[Forecast := Int(ins.forecast), Convexity := Num(ins.convexity), Market := Num(ins.market),
                 PvCurrency := Int(ins.pvCurrency), FxNum := Int(ins.fxNum), FxDen := Int(ins.fxDen),
                 FxSpot := Num(ins.fxSpot),
                 FxTime := Num(ins.fxTime), BandLower := Num(ins.lower), BandUpper := Num(ins.upper),
                 BandDecay := Num(ins.decay), TurnCurve := Int(ins.turnCurve), TurnIndex := Int(ins.turnIndex)];
    if ins.fxSpotTime != 0.0 then o[FxSpotTime := Num(ins.fxSpotTime)] else o
  }

  function InstrumentFields(ins: Instrument, p: Parts): Fields {
    PartFields(Numbers(ins), ins, p)
  }

  function PartFields(numbers: Fields, ins: Instrument, p: Parts): Fields {
    OptionalFields(WithParts(numbers, ins, p), ins, p)
  }

  /** The quote kind and the parts that are always written. */
  function WithParts(numbers: Fields, ins: Instrument, p: Parts): Fields {
    var o := numbers[QuoteKey := Text(QuoteToStr(ins.quote))];
    o[Fwd := p.fwd][Bench := p.bench][Fixed := p.fixed][Mtm := p.mtm][ObsKey := p.obs]
  }

  /** A penalty, state references and components are written only when there are any. */
  function OptionalFields(o: Fields, ins: Instrument, p: Parts): Fields {
    var o := if ins.penalty.Some? then o[Penalty := p.penalty] else o;
    var o := if |ins.state| != 0 then o[StateKey := p.state] else o;
    if |ins.combination| != 0 then o[Combination := p.combination] else o
  }

  function QuoteFrom(o: Fields): Read<QuoteKind> {
    if QuoteKey !in o then Got(ParRate) else
      var s :- AsText(o[QuoteKey]);
      QuoteFromStr(s)
  }

  function InstrumentOf(o: Fields, quote: Read<QuoteKind>, nested: Read<Nested>): Read<Instrument> {
    var quote :- quote;
    var n :- nested;
    var forecast :- IntAt(o, Forecast, 0);
    var convexity :- RealAt(o, Convexity, 0.0);
    var market :- RealAt(o, Market, 0.0);
    var pvCurrency :- IntAt(o, PvCurrency, 0);
    var fxNum :- IntAt(o, FxNum, -1);
    var fxDen :- IntAt(o, FxDen, -1);
    var fxSpot :- RealAt(o, FxSpot, 1.0);
    var fxTime :- RealAt(o, FxTime, 0.0);
    var fxSpotTime :- RealAt(o, FxSpotTime, 0.0);
    var lower :- RealAt(o, BandLower, 0.0);
    var upper :- RealAt(o, BandUpper, 0.0);
    var decay :- RealAt(o, BandDecay, 1.0);
    var turnCurve :- IntAt(o, TurnCurve, 0);
    var turnIndex :- IntAt(o, TurnIndex, 0);
    Got(Instrument(quote, n.fwd, n.bench, n.fixed, n.mtm, n.obs, forecast, convexity, market, pvCurrency, fxNum, fxDen,
                   fxSpot,
                   fxTime, fxSpotTime, lower, upper, decay, n.penalty, turnCurve, turnIndex, n.state, n.combination))
  }

  /** An instrument with its nested parts replaced. */
  function With(ins: Instrument, n: Nested): Instrument {
    ins.(fwd := n.fwd, bench := n.bench, fixed := n.fixed, mtm := n.mtm, obs := n.obs, penalty := n.penalty,
         state := n.state, combination := n.combination)
  }

  // ---- the recursive codec ----

  function PartsOf(ins: Instrument): Parts
    decreases ins, 0
  {
    Parts(LegTo(ins.fwd), LegTo(ins.bench), FixedLegTo(ins.fixed), LegTo(ins.mtm), ObsTo(ins.obs),
          if ins.penalty.Some? then PenaltyTo(ins.penalty.value) else Null,
          Arr(Mapped(ins.state, RefTo)), Arr(ComponentsTo(ins.combination)))
  }

  function InstrumentTo(ins: Instrument): Json
    decreases ins, 1
  {
    Obj(InstrumentFields(ins, PartsOf(ins)))
  }

  function ComponentsTo(ws: seq<Weighted>): seq<Json>
    decreases ws
  {
    if ws == [] then [] else [ComponentTo(ws[0])] + ComponentsTo(ws[1..])
  }

  function ComponentTo(w: Weighted): Json
    decreases w
  {
    Obj(ComponentFields(w.weight, InstrumentTo(w.instrument)))
  }

  function ComponentFields(weight: real, instrument: Json): Fields {
    map[Weight := Num(weight), InstrumentKey := instrument]
  }

  function NestedFrom(j: Json): Read<Nested>
    requires j.Obj?
    decreases j, 0
  {
    var o := j.fields;
    var fwd :- if Fwd in o then LegFrom(o[Fwd]) else Got(NO_FLOAT_LEG);
    var bench :- if Bench in o then LegFrom(o[Bench]) else Got(NO_FLOAT_LEG);
    var fixed :- if Fixed in o then FixedLegFrom(o[Fixed]) else Got(NO_FIXED_LEG);
    var mtm :- if Mtm in o then LegFrom(o[Mtm]) else Got(NO_FLOAT_LEG);
    var obs :- if ObsKey in o then ObsFrom(o[ObsKey]) else Got(NO_OBSERVATION);
    var penalty :- PenaltyAt(o);
    var state :- ListAt(o, StateKey, RefFrom);
    var combination :- if Combination !in o then Got([])
      else if o[Combination].Arr? then ComponentsFrom(o[Combination].items) else Thrown;
    Got(Nested(fwd, bench, fixed, mtm, obs, penalty, state, combination))
  }

  function PenaltyAt(o: Fields): Read<Option<PenaltyMap>> {
    if Penalty !in o then Got(None) else
      var p :- PenaltyFrom(o[Penalty]);
      Got(Some(p))
  }

  function InstrumentFrom(j: Json): Read<Instrument>
    decreases j, 1
  {
    if !j.Obj? then Thrown else InstrumentOf(j.fields, QuoteFrom(j.fields), NestedFrom(j))
  }

  function ComponentFrom(j: Json): Read<Weighted>
    decreases j, 2
  {
    if !j.Obj? || InstrumentKey !in j.fields then Thrown
    else ComponentOf(RealAt(j.fields, Weight, 1.0), InstrumentFrom(j.fields[InstrumentKey]))
  }

  function ComponentOf(weight: Read<real>, instrument: Read<Instrument>): Read<Weighted> {
    var weight :- weight;
    var instrument :- instrument;
    Got(Weighted(weight, instrument))
  }

  function ComponentsFrom(js: seq<Json>): Read<seq<Weighted>>
    decreases js
  {
    if js == [] then Got([]) else
      var first :- ComponentFrom(js[0]);
      var rest :- ComponentsFrom(js[1..]);
      Got([first] + rest)
  }

  function NormNested(ins: Instrument): Nested
    decreases ins, 0
  {
    Nested(NormLeg(ins.fwd), NormLeg(ins.bench), ins.fixed, NormLeg(ins.mtm), NormObs(ins.obs), ins.penalty, ins.state,
           NormComponents(ins.combination))
  }

  /** An instrument in normal form: its legs, observation and components are. */
  function NormInstrument(ins: Instrument): Instrument
    decreases ins, 1
  {
    With(ins, NormNested(ins))
  }

  function NormComponents(ws: seq<Weighted>): (r: seq<Weighted>)
    ensures |r| == |ws|
    decreases ws
  {
    if ws == [] then [] else [NormComponent(ws[0])] + NormComponents(ws[1..])
  }

  function NormComponent(w: Weighted): Weighted
    decreases w
  {
    Weighted(w.weight, NormInstrument(w.instrument))
  }

  // ---- round trips ----

  ghost predicate QuoteNumbers(o: Fields, ins: Instrument) {
    && IntAt(o, Forecast, 0) == Got(ins.forecast) && RealAt(o, Convexity, 0.0) == Got(ins.convexity)
    && RealAt(o, Market, 0.0) == Got(ins.market) && IntAt(o, PvCurrency, 0) == Got(ins.pvCurrency)
    && RealAt(o, BandLower, 0.0) == Got(ins.lower) && RealAt(o, BandUpper, 0.0) == Got(ins.upper)
    && RealAt(o, BandDecay, 1.0) == Got(ins.decay)
  }

  ghost predicate FxNumbers(o: Fields, ins: Instrument) {
    && IntAt(o, FxNum, -1) == Got(ins.fxNum) && IntAt(o, FxDen, -1) == Got(ins.fxDen)
    && RealAt(o, FxSpot, 1.0) == Got(ins.fxSpot) && RealAt(o, FxTime, 0.0) == Got(ins.fxTime)
    && RealAt(o, FxSpotTime, 0.0) == Got(ins.fxSpotTime)
    && IntAt(o, TurnCurve, 0) == Got(ins.turnCurve) && IntAt(o, TurnIndex, 0) == Got(ins.turnIndex)
  }

  /** Two documents have the same field under a name, or both have none. */
  predicate Same(o: Fields, m: Fields, k: Key) {
    (k in o <==> k in m) && (k in m ==> o[k] == m[k])
  }

  predicate IsPart(k: Key) {
    k.QuoteKey? || k.Fwd? || k.Bench? || k.Fixed? || k.Mtm? || k.ObsKey? || k.Penalty? || k.StateKey? || k.Combination?
  }

  lemma KeptByOptional(o: Fields, ins: Instrument, p: Parts, k: Key)
    requires !(k.Penalty? || k.StateKey? || k.Combination?)
    ensures Same(OptionalFields(o, ins, p), o, k)
  {
  }

  /** Adding the nested parts leaves every number where it was. */
  lemma Kept(numbers: Fields, ins: Instrument, p: Parts, k: Key)
    requires !IsPart(k)
    ensures Same(PartFields(numbers, ins, p), numbers, k)
  {
    var o := WithParts(numbers, ins, p);
    KeptByOptional(o, ins, p, k);
    assert Same(o, numbers, k);
  }

  lemma QuoteNumbersWritten(ins: Instrument)
    ensures QuoteNumbers(Numbers(ins), ins)
  {
  }

  lemma FxNumbersWritten(ins: Instrument)
    ensures FxNumbers(Numbers(ins), ins)
  {
  }

  lemma QuoteNumbersKept(o: Fields, m: Fields, ins: Instrument)
    requires QuoteNumbers(m, ins) && forall k :: !IsPart(k) ==> Same(o, m, k)
    ensures QuoteNumbers(o, ins)
  {
    assert Same(o, m, Forecast) && Same(o, m, Convexity) && Same(o, m, Market) && Same(o, m, PvCurrency);
    assert Same(o, m, BandLower) && Same(o, m, BandUpper) && Same(o, m, BandDecay);
  }

  lemma FxNumbersKept(o: Fields, m: Fields, ins: Instrument)
    requires FxNumbers(m, ins) && forall k :: !IsPart(k) ==> Same(o, m, k)
    ensures FxNumbers(o, ins)
  {
    assert Same(o, m, FxNum) && Same(o, m, FxDen) && Same(o, m, FxSpot) && Same(o, m, FxTime);
    assert Same(o, m, FxSpotTime) && Same(o, m, TurnCurve) && Same(o, m, TurnIndex);
  }

  lemma NumbersInPlace(ins: Instrument, p: Parts)
    ensures QuoteNumbers(InstrumentFields(ins, p), ins) && FxNumbers(InstrumentFields(ins, p), ins)
  {
    forall k | !IsPart(k) ensures Same(InstrumentFields(ins, p), Numbers(ins), k) {
      Kept(Numbers(ins), ins, p, k);
    }
    QuoteNumbersWritten(ins);
    FxNumbersWritten(ins);
    QuoteNumbersKept(InstrumentFields(ins, p), Numbers(ins), ins);
    FxNumbersKept(InstrumentFields(ins, p), Numbers(ins), ins);
  }

  lemma NumbersRead(o: Fields, ins: Instrument, n: Nested)
    requires QuoteNumbers(o, ins) && FxNumbers(o, ins)
    ensures InstrumentOf(o, Got(ins.quote), Got(n)) == Got(With(ins, n))
  {
  }

  /** The nested parts stand in the document under their own names, an empty one not at all. */
  ghost predicate Holds(o: Fields, ins: Instrument, p: Parts) {
    HoldsLegs(o, p) && HoldsOptional(o, ins, p)
  }

  ghost predicate HoldsLegs(o: Fields, p: Parts) {
    && Fwd in o && o[Fwd] == p.fwd && Bench in o && o[Bench] == p.bench && Fixed in o && o[Fixed] == p.fixed
    && Mtm in o && o[Mtm] == p.mtm && ObsKey in o && o[ObsKey] == p.obs
  }

  ghost predicate HoldsOptional(o: Fields, ins: Instrument, p: Parts) {
    && (if ins.penalty.Some? then Penalty in o && o[Penalty] == p.penalty else Penalty !in o)
    && (if |ins.state| != 0 then StateKey in o && o[StateKey] == p.state else StateKey !in o)
    && (if |ins.combination| != 0 then Combination in o && o[Combination] == p.combination else Combination !in o)
  }

  lemma OptionalHold(o: Fields, ins: Instrument, p: Parts)
    requires Penalty !in o && StateKey !in o && Combination !in o
    ensures HoldsOptional(OptionalFields(o, ins, p), ins, p)
  {
  }

  lemma PartsHold(numbers: Fields, ins: Instrument, p: Parts)
    requires Penalty !in numbers && StateKey !in numbers && Combination !in numbers
    ensures var o := PartFields(numbers, ins, p);
            Holds(o, ins, p) && QuoteKey in o && o[QuoteKey] == Text(QuoteToStr(ins.quote))
  {
    var o := WithParts(numbers, ins, p);
    OptionalHold(o, ins, p);
    KeptByOptional(o, ins, p, Fwd);
    KeptByOptional(o, ins, p, Bench);
    KeptByOptional(o, ins, p, Fixed);
    KeptByOptional(o, ins, p, Mtm);
    KeptByOptional(o, ins, p, ObsKey);
    KeptByOptional(o, ins, p, QuoteKey);
  }

  lemma NumbersAreNoParts(ins: Instrument)
    ensures Penalty !in Numbers(ins) && StateKey !in Numbers(ins) && Combination !in Numbers(ins)
  {
  }

  lemma FieldsHold(ins: Instrument, p: Parts)
    ensures var o := InstrumentFields(ins, p); Holds(o, ins, p) && QuoteFrom(o) == Got(ins.quote)
  {
    NumbersAreNoParts(ins);
    PartsHold(Numbers(ins), ins, p);
    QuoteSpelled(ins.quote);
  }

  lemma SameNumbers(ins: Instrument, p: Parts, n: Nested)
    requires |n.combination| == |ins.combination| && n.state == ins.state && n.penalty == ins.penalty
    ensures InstrumentFields(With(ins, n), p) == InstrumentFields(ins, p)
  {
  }

  /** A part's document reads as its normal form, which writes the same document. */
  ghost predicate PartsRead(ins: Instrument, p: Parts, n: Nested) {
    && LegFrom(p.fwd) == Got(n.fwd) && LegFrom(p.bench) == Got(n.bench) && FixedLegFrom(p.fixed) == Got(n.fixed)
    && LegFrom(p.mtm) == Got(n.mtm) && ObsFrom(p.obs) == Got(n.obs)
    && (ins.penalty.Some? ==> PenaltyFrom(p.penalty) == Got(ins.penalty.value)) && n.penalty == ins.penalty
    && p.state.Arr? && ReadAll(p.state.items, RefFrom) == Got(ins.state) && n.state == ins.state
    && p.combination.Arr? && ComponentsFrom(p.combination.items) == Got(n.combination)
    && |n.combination| == |ins.combination|
  }

  lemma NestedReads(ins: Instrument, o: Fields, p: Parts, n: Nested)
    requires Holds(o, ins, p) && PartsRead(ins, p, n)
    ensures NestedFrom(Obj(o)) == Got(n)
  {
    var j := Obj(o);
    assert PenaltyAt(o) == Got(n.penalty);
    assert ListAt(o, StateKey, RefFrom) == Got(n.state);
    if |ins.combination| == 0 {
      assert n.combination == [];
    }
  }

  lemma LeavesRead(ins: Instrument)
    ensures var p, n := PartsOf(ins), NormNested(ins);
            && LegFrom(p.fwd) == Got(n.fwd) && LegFrom(p.bench) == Got(n.bench) && FixedLegFrom(p.fixed) == Got(n.fixed)
            && LegFrom(p.mtm) == Got(n.mtm) && ObsFrom(p.obs) == Got(n.obs)
            && (ins.penalty.Some? ==> PenaltyFrom(p.penalty) == Got(ins.penalty.value))
            && p.state.Arr? && ReadAll(p.state.items, RefFrom) == Got(ins.state)
    ensures LegTo(NormLeg(ins.fwd)) == LegTo(ins.fwd) && LegTo(NormLeg(ins.bench)) == LegTo(ins.bench)
            && LegTo(NormLeg(ins.mtm)) == LegTo(ins.mtm) && ObsTo(NormObs(ins.obs)) == ObsTo(ins.obs)
  {
    LegRoundTrip(ins.fwd);
    LegRoundTrip(ins.bench);
    LegRoundTrip(ins.mtm);
    FixedLegRoundTrip(ins.fixed);
    ObsRoundTrip(ins.obs);
    if ins.penalty.Some? {
      PenaltyRoundTrip(ins.penalty.value);
    }
    RefsRead(ins.state);
  }

  /** Decoding an encoded instrument gives its normal form, at every depth of its portfolio, and the normal form writes
      the same document. */
  lemma {:induction false} InstrumentRoundTrip(ins: Instrument)
    ensures InstrumentFrom(InstrumentTo(ins)) == Got(NormInstrument(ins))
    ensures InstrumentTo(NormInstrument(ins)) == InstrumentTo(ins)
    decreases ins, 1
  {
    var p, n := PartsOf(ins), NormNested(ins);
    ComponentsRoundTrip(ins.combination);
    LeavesRead(ins);
    assert PartsRead(ins, p, n);
    FieldsHold(ins, p);
    NumbersInPlace(ins, p);
    NumbersRead(InstrumentFields(ins, p), ins, n);
    NestedReads(ins, InstrumentFields(ins, p), p, n);
    assert PartsOf(NormInstrument(ins)) == p;
    SameNumbers(ins, p, n);
  }

  lemma {:induction false} ComponentsRoundTrip(ws: seq<Weighted>)
    ensures ComponentsFrom(ComponentsTo(ws)) == Got(NormComponents(ws))
    ensures ComponentsTo(NormComponents(ws)) == ComponentsTo(ws)
    decreases ws
  {
    if ws != [] {
      ComponentRoundTrip(ws[0]);
      ComponentsRoundTrip(ws[1..]);
      var js, ns := ComponentsTo(ws), NormComponents(ws);
      assert js[0] == ComponentTo(ws[0]) && js[1..] == ComponentsTo(ws[1..]);
      assert ns[0] == NormComponent(ws[0]) && ns[1..] == NormComponents(ws[1..]);
    }
  }

  lemma {:induction false} ComponentRoundTrip(w: Weighted)
    ensures ComponentFrom(ComponentTo(w)) == Got(NormComponent(w)) && ComponentTo(NormComponent(w)) == ComponentTo(w)
    decreases w
  {
    InstrumentRoundTrip(w.instrument);
    ComponentFieldsRead(w.weight, InstrumentTo(w.instrument));
  }

  lemma ComponentFieldsRead(weight: real, instrument: Json)
    ensures var o := ComponentFields(weight, instrument);
            RealAt(o, Weight, 1.0) == Got(weight) && InstrumentKey in o && o[InstrumentKey] == instrument
  {
  }

  // ---- bundles ----

  function BundleFields(b: Bundle, curves: Json, instruments: Json, constraints: Json): Fields {
    var o := map[CurvesKey := curves, Instruments := instruments];
    var o := if |b.constraints| != 0 then o[Constraints := constraints] else o;
    if |b.codes| != 0 then o[CurrencyCodes := Texts(b.codes)] else o
  }

  function Texts(names: seq<string>): Json {
    Arr(Mapped(names, (s: string) => Text(s)))
  }

  function BundleTo(b: Bundle): Json {
    Obj(BundleFields(b, Arr(Mapped(b.curves, CurveTo)), Arr(Mapped(b.instruments, InstrumentTo)),
                     Arr(Mapped(b.constraints, InstrumentTo))))
  }

  function BundleOf(curves: Read<seq<CurveSpec>>, instruments: Read<seq<Instrument>>,
                    constraints: Read<seq<Instrument>>, codes: Read<seq<string>>): Read<Bundle> {
    var curves :- curves;
    var instruments :- instruments;
    var constraints :- constraints;
    var codes :- codes;
    Got(Bundle(curves, instruments, constraints, codes))
  }

  function BundleFrom(j: Json): Read<Bundle> {
    var o :- AsObj(j);
    BundleOf(ListAt(o, CurvesKey, CurveFrom), ListAt(o, Instruments, InstrumentFrom),
             ListAt(o, Constraints, InstrumentFrom),
             ListAt(o, CurrencyCodes, AsText))
  }

  function NormBundle(b: Bundle): Bundle {
    Bundle(Mapped(b.curves, NormCurve), Mapped(b.instruments, NormInstrument), Mapped(b.constraints, NormInstrument),
           b.codes)
  }

  lemma CurvesRoundTrip(cs: seq<CurveSpec>)
    ensures ReadAll(Mapped(cs, CurveTo), CurveFrom) == Got(Mapped(cs, NormCurve))
    ensures Mapped(Mapped(cs, NormCurve), CurveTo) == Mapped(cs, CurveTo)
  {
    forall i | 0 <= i < |cs|
      ensures CurveFrom(CurveTo(cs[i])) == Got(NormCurve(cs[i])) && CurveTo(NormCurve(cs[i])) == CurveTo(cs[i])
    {
      CurveRoundTrip(cs[i]);
    }
    ReadsAll(cs, CurveTo, CurveFrom, NormCurve);
    assert Mapped(Mapped(cs, NormCurve), CurveTo) == Mapped(cs, CurveTo);
  }

  lemma InstrumentsRoundTrip(xs: seq<Instrument>)
    ensures ReadAll(Mapped(xs, InstrumentTo), InstrumentFrom) == Got(Mapped(xs, NormInstrument))
    ensures Mapped(Mapped(xs, NormInstrument), InstrumentTo) == Mapped(xs, InstrumentTo)
  {
    forall i | 0 <= i < |xs|
      ensures InstrumentFrom(InstrumentTo(xs[i])) == Got(NormInstrument(xs[i]))
      ensures InstrumentTo(NormInstrument(xs[i])) == InstrumentTo(xs[i])
    {
      InstrumentRoundTrip(xs[i]);
    }
    ReadsAll(xs, InstrumentTo, InstrumentFrom, NormInstrument);
    assert Mapped(Mapped(xs, NormInstrument), InstrumentTo) == Mapped(xs, InstrumentTo);
  }

  lemma TextsRead(names: seq<string>)
    ensures Texts(names).Arr? && ReadAll(Texts(names).items, AsText) == Got(names)
  {
    var write, back := (s: string) => Text(s), (s: string) => s;
    ReadsAll(names, write, AsText, back);
    assert Mapped(names, back) == names;
    assert Texts(names).items == Mapped(names, write);
  }

  lemma BundleFieldsRead(b: Bundle, curves: Json, instruments: Json, constraints: Json)
    ensures var o := BundleFields(b, curves, instruments, constraints);
            && CurvesKey in o && o[CurvesKey] == curves && Instruments in o && o[Instruments] == instruments
            && (if |b.constraints| != 0 then Constraints in o && o[Constraints] == constraints else Constraints !in o)
            && (if |b.codes| != 0 then CurrencyCodes in o && o[CurrencyCodes] == Texts(b.codes)
                else CurrencyCodes !in o)
  {
  }

  lemma FieldLists(b: Bundle, o: Fields)
    requires o == BundleTo(b).fields
    ensures ListAt(o, CurvesKey, CurveFrom) == Got(Mapped(b.curves, NormCurve))
    ensures ListAt(o, Instruments, InstrumentFrom) == Got(Mapped(b.instruments, NormInstrument))
    ensures ListAt(o, Constraints, InstrumentFrom) == Got(Mapped(b.constraints, NormInstrument))
    ensures ListAt(o, CurrencyCodes, AsText) == Got(b.codes)
  {
    BundleFieldsRead(b, Arr(Mapped(b.curves, CurveTo)), Arr(Mapped(b.instruments, InstrumentTo)),
                     Arr(Mapped(b.constraints, InstrumentTo)));
    CurvesRoundTrip(b.curves);
    InstrumentsRoundTrip(b.instruments);
    InstrumentsRoundTrip(b.constraints);
    TextsRead(b.codes);
  }

  /** Decoding an encoded bundle gives its normal form, and encoding that gives the same document: a document that has
      been through the codec once never changes again. */
  lemma BundleRoundTrip(b: Bundle)
    ensures BundleFrom(BundleTo(b)) == Got(NormBundle(b))
    ensures BundleTo(NormBundle(b)) == BundleTo(b)
  {
    FieldLists(b, BundleTo(b).fields);
    CurvesRoundTrip(b.curves);
    InstrumentsRoundTrip(b.instruments);
    InstrumentsRoundTrip(b.constraints);
  }

  /** Normalising twice is normalising once. */
  lemma NormalFormIsFixed(b: Bundle)
    ensures NormBundle(NormBundle(b)) == NormBundle(b)
  {
    BundleRoundTrip(b);
    BundleRoundTrip(NormBundle(b));
  }

  /** Every document the decoder accepts, however it was written, settles after one trip: encoding what it decodes to
      gives a document that decodes to the normal form of that, and decoding and encoding leave it unchanged. */
  lemma DocumentSettles(j: Json)
    requires BundleFrom(j).Got?
    ensures var b := BundleFrom(j).value;
            BundleFrom(BundleTo(b)) == Got(NormBundle(b)) && BundleTo(BundleFrom(BundleTo(b)).value) == BundleTo(b)
  {
    BundleRoundTrip(BundleFrom(j).value);
  }
}
