/** What each decoder makes of a document, field by field: the struct's own default where the document has no such field
    or a null, what the field says where it has one, and a refusal where it says something else. */
module CodecDefaults {
  import opened BundleCodec
  import opened Codec
  import opened CodecModel
  import opened Curves
  import opened Wrappers

  // ---- one field ----

  ghost predicate Missing(o: Fields, k: Key) {
    k !in o || o[k] == Null
  }

  /** A number: a real, or a whole number read as that real. */
  ghost predicate IsReal(j: Json, v: real) {
    j == Num(v) || (j.Int? && v == j.i as real)
  }

  ghost predicate Real(o: Fields, k: Key, default: real, v: real) {
    if Missing(o, k) then v == default else IsReal(o[k], v)
  }

  /** A whole number, however it is spelled. */
  ghost predicate Whole(o: Fields, k: Key, default: int, v: int) {
    if Missing(o, k) then v == default else o[k] == Int(v) || o[k] == Num(v as real)
  }

  ghost predicate Flag(o: Fields, k: Key, default: bool, v: bool) {
    if Missing(o, k) then v == default else o[k] == Bool(v)
  }

  ghost predicate Name(o: Fields, k: Key, default: string, v: string) {
    if Missing(o, k) then v == default else o[k] == Text(v)
  }

  ghost predicate AreReals(j: Json, xs: seq<real>) {
    j.Arr? && |j.items| == |xs| && forall i :: 0 <= i < |xs| ==> IsReal(j.items[i], xs[i])
  }

  ghost predicate RealList(o: Fields, k: Key, xs: seq<real>) {
    if Missing(o, k) then xs == [] else AreReals(o[k], xs)
  }

  /** A list of structs: a missing one is empty, a null is refused. */
  ghost predicate List<T>(o: Fields, k: Key, read: Json -> Read<T>, xs: seq<T>) {
    if k !in o then xs == []
    else o[k].Arr? && |o[k].items| == |xs| && forall i :: 0 <= i < |xs| ==> read(o[k].items[i]) == Got(xs[i])
  }

  /** A nested struct: a missing one is the default, a null is refused. */
  ghost predicate Struct<T>(o: Fields, k: Key, read: Json -> Read<T>, default: T, v: T) {
    if k !in o then v == default else read(o[k]) == Got(v)
  }

  /** A list of names. */
  ghost predicate Names(o: Fields, k: Key, names: seq<string>) {
    if k !in o then names == []
    else o[k].Arr? && |o[k].items| == |names| && forall i :: 0 <= i < |names| ==> o[k].items[i] == Text(names[i])
  }

  lemma RealIs(o: Fields, k: Key, default: real, v: real)
    ensures RealAt(o, k, default) == Got(v) <==> Real(o, k, default, v)
  {
  }

  lemma WholeIs(o: Fields, k: Key, default: int, v: int)
    ensures IntAt(o, k, default) == Got(v) <==> Whole(o, k, default, v)
  {
  }

  lemma {:induction false} ReadAllIs<T>(js: seq<Json>, read: Json -> Read<T>, xs: seq<T>)
    ensures ReadAll(js, read) == Got(xs) <==>
            |js| == |xs| && forall i :: 0 <= i < |xs| ==> read(js[i]) == Got(xs[i])
  {
    if js != [] && xs != [] {
      var rest := xs[1..];
      ReadAllIs(js[1..], read, rest);
      assert xs == [xs[0]] + rest;
      if |js| == |xs| {
        assert (forall i :: 0 <= i < |rest| ==> read(js[1..][i]) == Got(rest[i])) <==>
               (forall i :: 1 <= i < |xs| ==> read(js[i]) == Got(xs[i])) by {
          assert forall i :: 1 <= i < |xs| ==> js[i] == js[1..][i - 1] && xs[i] == rest[i - 1];
        }
      }
    }
  }

  lemma ListIs<T>(o: Fields, k: Key, read: Json -> Read<T>, xs: seq<T>)
    ensures ListAt(o, k, read) == Got(xs) <==> List(o, k, read, xs)
  {
    if k in o && o[k].Arr? {
      ReadAllIs(o[k].items, read, xs);
    }
  }

  lemma RealListIs(o: Fields, k: Key, xs: seq<real>)
    ensures RealsAt(o, k) == Got(xs) <==> RealList(o, k, xs)
  {
    if Present(o, k) && o[k].Arr? {
      ReadAllIs(o[k].items, AsReal, xs);
    }
  }

  // ---- observations, coupons and legs ----

  /** A fixing day. */
  lemma DayReads(o: Fields, d: FixingDay)
    ensures DayFrom(Obj(o)) == Got(d) <==>
            && Whole(o, FixingDate, 0, d.date) && Real(o, Accrual, 0.0, d.accrual) && Real(o, TStart, 0.0, d.start)
            && Real(o, TEnd, 0.0, d.end) && Real(o, Weight, 1.0, d.weight)
  {
    WholeIs(o, FixingDate, 0, d.date);
    RealIs(o, Accrual, 0.0, d.accrual);
    RealIs(o, TStart, 0.0, d.start);
    RealIs(o, TEnd, 0.0, d.end);
    RealIs(o, Weight, 1.0, d.weight);
  }

  /** A rate observation; whether it was resolved is never read. */
  lemma ObsReads(o: Fields, r: Observation)
    ensures ObsFrom(Obj(o)) == Got(r) <==>
            && RealList(o, SubStart, r.subStart) && RealList(o, SubEnd, r.subEnd) && RealList(o, Weight, r.weight)
            && Real(o, Realized, 0.0, r.realized) && Real(o, TauIndex, 0.0, r.tauIndex)
            && Real(o, FixingStep, 0.0, r.fixingStep) && Real(o, FixingStep3, 0.0, r.fixingStep3)
            && Flag(o, Compounded, false, r.compounded) && Real(o, RealizedFactor, 1.0, r.realizedFactor)
            && Name(o, FixingIndex, "", r.fixingIndex) && List(o, FixingSchedule, DayFrom, r.schedule) && !r.resolved
  {
    RealListIs(o, SubStart, r.subStart);
    RealListIs(o, SubEnd, r.subEnd);
    RealListIs(o, Weight, r.weight);
    RealIs(o, Realized, 0.0, r.realized);
    RealIs(o, TauIndex, 0.0, r.tauIndex);
    RealIs(o, FixingStep, 0.0, r.fixingStep);
    RealIs(o, FixingStep3, 0.0, r.fixingStep3);
    RealIs(o, RealizedFactor, 1.0, r.realizedFactor);
    ListIs(o, FixingSchedule, DayFrom, r.schedule);
  }

  /** A floating coupon: its accrual period and its FX fixing are set by their fields being there at all, the period by
      both of its ends. */
  lemma CouponReads(o: Fields, c: FloatCoupon)
    ensures CouponFrom(Obj(o)) == Got(c) <==>
            && Struct(o, ObsKey, ObsFrom, Observation([], [], [], 0.0, 0.0, 0.0, 0.0, false, 1.0, "", [], false), c.obs)
            && Real(o, Pay, 0.0, c.pay) && Real(o, TauPay, 0.0, c.tauPay) && Real(o, SpreadKey, 0.0, c.spread)
            && Real(o, Scale, 1.0, c.scale) && Real(o, ResetTime, -1.0, c.resetTime)
            && Real(o, ResetFx, -1.0, c.resetFx)
            && (c.accrualSet <==> AccrualStart in o && AccrualEnd in o)
            && (if c.accrualSet
                then Real(o, AccrualStart, 0.0, c.accrualStart) && Real(o, AccrualEnd, 0.0, c.accrualEnd)
                else c.accrualStart == 0.0 && c.accrualEnd == 0.0)
            && (c.fxFixingSet <==> FxFixingTime in o) && Real(o, FxFixingTime, 0.0, c.fxFixingTime)
  {
    RealIs(o, Pay, 0.0, c.pay);
    RealIs(o, TauPay, 0.0, c.tauPay);
    RealIs(o, SpreadKey, 0.0, c.spread);
    RealIs(o, Scale, 1.0, c.scale);
    RealIs(o, ResetTime, -1.0, c.resetTime);
    RealIs(o, ResetFx, -1.0, c.resetFx);
    RealIs(o, AccrualStart, 0.0, c.accrualStart);
    RealIs(o, AccrualEnd, 0.0, c.accrualEnd);
    RealIs(o, FxFixingTime, 0.0, c.fxFixingTime);
  }

  lemma FixedCouponReads(o: Fields, c: FixedCoupon)
    ensures FixedCouponFrom(Obj(o)) == Got(c) <==>
            Real(o, Pay, 0.0, c.pay) && Real(o, Tau, 0.0, c.tau) && Real(o, Scale, 1.0, c.scale)
  {
    RealIs(o, Pay, 0.0, c.pay);
    RealIs(o, Tau, 0.0, c.tau);
    RealIs(o, Scale, 1.0, c.scale);
  }

  lemma LegReads(o: Fields, l: FloatLeg)
    ensures LegFrom(Obj(o)) == Got(l) <==>
            && List(o, Coupons, CouponFrom, l.coupons)
            && Whole(o, Forecast, 0, l.forecast) && Whole(o, Discount, 0, l.discount)
            && Whole(o, ResetNum, -1, l.resetNum) && Whole(o, ResetDen, -1, l.resetDen)
            && Real(o, FxSpot, 1.0, l.fxSpot) && Real(o, FxSpotTime, 0.0, l.fxSpotTime)
  {
    ListIs(o, Coupons, CouponFrom, l.coupons);
    WholeIs(o, Forecast, 0, l.forecast);
    WholeIs(o, Discount, 0, l.discount);
    WholeIs(o, ResetNum, -1, l.resetNum);
    WholeIs(o, ResetDen, -1, l.resetDen);
    RealIs(o, FxSpot, 1.0, l.fxSpot);
    RealIs(o, FxSpotTime, 0.0, l.fxSpotTime);
  }

  lemma FixedLegReads(o: Fields, l: FixedLeg)
    ensures FixedLegFrom(Obj(o)) == Got(l) <==>
            List(o, Coupons, FixedCouponFrom, l.coupons) && Whole(o, Discount, 0, l.discount)
  {
    ListIs(o, Coupons, FixedCouponFrom, l.coupons);
    WholeIs(o, Discount, 0, l.discount);
  }

  // ---- curves ----

  /** A region; the retired tension weight is refused when it is given and not negative. */
  lemma RegionReads(o: Fields, m: CurveModule)
    ensures RegionFrom(Obj(o)) == Got(m) <==>
            && (if SchemeKey in o then o[SchemeKey].Text? && SchemeFromStr(o[SchemeKey].s) == Some(m.scheme)
                else m.scheme == Hermite)
            && RealList(o, KnotsKey, m.knots) && Real(o, Sigma, 0.0, m.sigma) && Real(o, RegLambda, -1.0, m.regLambda)
            && (RegSigma in o ==> exists v :: IsReal(o[RegSigma], v) && v < 0.0)
  {
    RealListIs(o, KnotsKey, m.knots);
    RealIs(o, Sigma, 0.0, m.sigma);
    RealIs(o, RegLambda, -1.0, m.regLambda);
    if RegSigma in o && AsReal(o[RegSigma]).Got? {
      assert IsReal(o[RegSigma], AsReal(o[RegSigma]).value);
    }
  }

  lemma TurnReads(o: Fields, t: Turn)
    ensures TurnFrom(Obj(o)) == Got(t) <==> Real(o, StartKey, 0.0, t.start) && Real(o, EndKey, 0.0, t.end)
  {
    RealIs(o, StartKey, 0.0, t.start);
    RealIs(o, EndKey, 0.0, t.end);
  }

  /** The regions a curve document gives: its own list, or, when that is empty, a flat piece over its legacy meeting
      knots and a Hermite piece over its back knots, an empty piece left out. */
  ghost predicate RegionsRead(o: Fields, regions: seq<CurveModule>, front: seq<real>, back: seq<real>,
                              own: seq<CurveModule>) {
    && RealList(o, Meeting, front) && RealList(o, Back, back) && List(o, Regions, RegionFrom, own)
    && regions == if own != [] then own else
      (if front == [] then [] else [CurveModule(front, Flat, 0.0, -1.0)]) +
      (if back == [] then [] else [CurveModule(back, Hermite, 0.0, -1.0)])
  }

  lemma CurveReads(o: Fields, s: CurveSpec)
    ensures CurveFrom(Obj(o)) == Got(s) <==>
            && Whole(o, Base, -1, s.base) && Whole(o, Currency, 0, s.currency)
            && Real(o, FixingTenor, -1.0, s.fixingTenor) && List(o, TurnsKey, TurnFrom, s.turns)
            && exists front, back, own :: RegionsRead(o, s.regions, front, back, own)
  {
    WholeIs(o, Base, -1, s.base);
    WholeIs(o, Currency, 0, s.currency);
    RealIs(o, FixingTenor, -1.0, s.fixingTenor);
    ListIs(o, TurnsKey, TurnFrom, s.turns);
    if front, back, own :| RegionsRead(o, s.regions, front, back, own) {
      RealListIs(o, Meeting, front);
      RealListIs(o, Back, back);
      ListIs(o, Regions, RegionFrom, own);
    }
    var meeting, back, regions := RealsAt(o, Meeting), RealsAt(o, Back), ListAt(o, Regions, RegionFrom);
    if meeting.Got? && back.Got? && regions.Got? {
      RealListIs(o, Meeting, meeting.value);
      RealListIs(o, Back, back.value);
      ListIs(o, Regions, RegionFrom, regions.value);
      if CurveFrom(Obj(o)) == Got(s) {
        assert RegionsRead(o, s.regions, meeting.value, back.value, regions.value);
      }
    }
  }

  // ---- state references and penalty maps ----

  lemma RefReads(o: Fields, r: StateRef)
    ensures RefFrom(Obj(o)) == Got(r) <==>
            Whole(o, CurveKey, 0, r.curve) && Whole(o, IndexKey, 0, r.index) && Real(o, Coeff, 1.0, r.coeff)
  {
    WholeIs(o, CurveKey, 0, r.curve);
    WholeIs(o, IndexKey, 0, r.index);
    RealIs(o, Coeff, 1.0, r.coeff);
  }

  /** A penalty map has both lists, at most three breakpoints and one slope more. */
  lemma PenaltyReads(o: Fields, p: PenaltyMap)
    ensures PenaltyFrom(Obj(o)) == Got(p) <==>
            Breaks in o && AreReals(o[Breaks], p.breaks) && Slopes in o && AreReals(o[Slopes], p.slopes)
  {
    if Breaks in o && o[Breaks].Arr? {
      ReadAllIs(o[Breaks].items, AsReal, p.breaks);
    }
    if Slopes in o && o[Slopes].Arr? {
      ReadAllIs(o[Slopes].items, AsReal, p.slopes);
    }
  }

  /** A penalty map is accepted exactly with at most three breakpoints and one slope more, all numbers. */
  lemma PenaltyAcceptedIff(o: Fields)
    ensures PenaltyFrom(Obj(o)).Got? <==>
            Breaks in o && Slopes in o && exists breaks, slopes ::
              AreReals(o[Breaks], breaks) && AreReals(o[Slopes], slopes) && |breaks| <= 3 && |slopes| == |breaks| + 1
  {
    if PenaltyFrom(Obj(o)).Got? {
      PenaltyReads(o, PenaltyFrom(Obj(o)).value);
    }
    if Breaks in o && Slopes in o {
      forall breaks, slopes | AreReals(o[Breaks], breaks) && AreReals(o[Slopes], slopes)
        ensures AllReals(o[Breaks]) == Got(breaks) && AllReals(o[Slopes]) == Got(slopes)
      {
        ReadAllIs(o[Breaks].items, AsReal, breaks);
        ReadAllIs(o[Slopes].items, AsReal, slopes);
      }
    }
  }

  // ---- the name tables ----

  /** The words a scheme goes by. */
  lemma SchemeWords(word: string)
    ensures SchemeFromStr(word) == Some(Flat) <==> word == "Flat"
    ensures SchemeFromStr(word) == Some(Linear) <==> word == "Linear"
    ensures SchemeFromStr(word) == Some(NaturalCubic) <==> word == "NaturalCubic"
    ensures SchemeFromStr(word) == Some(Hermite) <==> word == "Hermite"
    ensures SchemeFromStr(word) == Some(MonotoneCubic) <==> word == "MonotoneCubic"
    ensures SchemeFromStr(word) == Some(BSpline) <==> word == "BSpline"
    ensures SchemeFromStr(word) == Some(Tension) <==> word == "Tension"
    ensures SchemeFromStr(word) == Some(MonotoneConvex) <==> word == "MonotoneConvex"
  {
    forall s: Scheme ensures SchemeFromStr(SchemeToStr(s)) == Some(s) {
      Spelled(s);
    }
  }

  /** The words a quote kind goes by. */
  lemma QuoteWords(word: string)
    ensures QuoteFromStr(word) == Got(ParRate) <==> word == "ParRate"
    ensures QuoteFromStr(word) == Got(ParSpread) <==> word == "ParSpread"
    ensures QuoteFromStr(word) == Got(Rate) <==> word == "Rate"
    ensures QuoteFromStr(word) == Got(FxForward) <==> word == "FxForward"
    ensures QuoteFromStr(word) == Got(XccyMtmBasis) <==> word == "XccyMtmBasis"
    ensures QuoteFromStr(word) == Got(Portfolio) <==> word == "Portfolio"
    ensures QuoteFromStr(word) == Got(TurnJump) <==> word == "TurnJump"
    ensures QuoteFromStr(word) == Got(ZeroCouponRate) <==> word == "ZeroCouponRate"
    ensures QuoteFromStr(word) == Got(Npv) <==> word == "Npv"
    ensures QuoteFromStr(word) == Got(StateLinear) <==> word == "StateLinear"
  {
    forall q: QuoteKind ensures QuoteFromStr(QuoteToStr(q)) == Got(q) {
      QuoteSpelled(q);
    }
  }

  // ---- instruments ----

  const PLAIN_LEG := FloatLeg([], 0, 0, -1, -1, 1.0, 0.0)
  const PLAIN_OBS := Observation([], [], [], 0.0, 0.0, 0.0, 0.0, false, 1.0, "", [], false)

  /** An instrument's nested parts. */
  ghost predicate PartsReadAs(o: Fields, n: Nested) {
    && Struct(o, Fwd, LegFrom, PLAIN_LEG, n.fwd) && Struct(o, Bench, LegFrom, PLAIN_LEG, n.bench)
    && Struct(o, Fixed, FixedLegFrom, FixedLeg([], 0), n.fixed) && Struct(o, Mtm, LegFrom, PLAIN_LEG, n.mtm)
    && Struct(o, ObsKey, ObsFrom, PLAIN_OBS, n.obs)
    && (if Penalty in o then n.penalty.Some? && PenaltyFrom(o[Penalty]) == Got(n.penalty.value) else n.penalty == None)
    && List(o, StateKey, RefFrom, n.state) && List(o, Combination, ComponentFrom, n.combination)
  }

  lemma {:induction false} ComponentsAreList(js: seq<Json>)
    ensures ComponentsFrom(js) == ReadAll(js, ComponentFrom)
  {
    if js != [] {
      ComponentsAreList(js[1..]);
    }
  }

  lemma NestedHasParts(o: Fields, n: Nested)
    requires NestedFrom(Obj(o)) == Got(n)
    ensures PartsReadAs(o, n)
  {
    ListIs(o, StateKey, RefFrom, n.state);
    ListIs(o, Combination, ComponentFrom, n.combination);
    if Combination in o && o[Combination].Arr? {
      ComponentsAreList(o[Combination].items);
    }
  }

  lemma PartsMakeNested(o: Fields, n: Nested)
    requires PartsReadAs(o, n)
    ensures NestedFrom(Obj(o)) == Got(n)
  {
    ListIs(o, StateKey, RefFrom, n.state);
    ListIs(o, Combination, ComponentFrom, n.combination);
    if Combination in o {
      ComponentsAreList(o[Combination].items);
    }
  }

  /** An instrument's own numbers: those of its quote, and those of its FX legs and turn. */
  ghost predicate QuoteNumbersReadAs(o: Fields, x: Instrument) {
    && Whole(o, Forecast, 0, x.forecast) && Real(o, Convexity, 0.0, x.convexity) && Real(o, Market, 0.0, x.market)
    && Whole(o, PvCurrency, 0, x.pvCurrency)
    && Real(o, BandLower, 0.0, x.lower) && Real(o, BandUpper, 0.0, x.upper) && Real(o, BandDecay, 1.0, x.decay)
  }

  ghost predicate FxNumbersReadAs(o: Fields, x: Instrument) {
    && Whole(o, FxNum, -1, x.fxNum) && Whole(o, FxDen, -1, x.fxDen)
    && Real(o, FxSpot, 1.0, x.fxSpot) && Real(o, FxTime, 0.0, x.fxTime) && Real(o, FxSpotTime, 0.0, x.fxSpotTime)
    && Whole(o, TurnCurve, 0, x.turnCurve) && Whole(o, TurnIndex, 0, x.turnIndex)
  }

  ghost function NestedIn(x: Instrument): Nested {
    Nested(x.fwd, x.bench, x.fixed, x.mtm, x.obs, x.penalty, x.state, x.combination)
  }

  lemma NumbersAre(o: Fields, x: Instrument)
    ensures InstrumentOf(o, Got(x.quote), Got(NestedIn(x))) == Got(x) <==>
            QuoteNumbersReadAs(o, x) && FxNumbersReadAs(o, x)
  {
    WholeIs(o, Forecast, 0, x.forecast);
    RealIs(o, Convexity, 0.0, x.convexity);
    RealIs(o, Market, 0.0, x.market);
    WholeIs(o, PvCurrency, 0, x.pvCurrency);
    WholeIs(o, FxNum, -1, x.fxNum);
    WholeIs(o, FxDen, -1, x.fxDen);
    RealIs(o, FxSpot, 1.0, x.fxSpot);
    RealIs(o, FxTime, 0.0, x.fxTime);
    RealIs(o, FxSpotTime, 0.0, x.fxSpotTime);
    RealIs(o, BandLower, 0.0, x.lower);
    RealIs(o, BandUpper, 0.0, x.upper);
    RealIs(o, BandDecay, 1.0, x.decay);
    WholeIs(o, TurnCurve, 0, x.turnCurve);
    WholeIs(o, TurnIndex, 0, x.turnIndex);
  }

  lemma InstrumentSplits(o: Fields, quote: Read<QuoteKind>, nested: Read<Nested>, x: Instrument)
    requires InstrumentOf(o, quote, nested) == Got(x)
    ensures quote == Got(x.quote) && nested == Got(NestedIn(x))
  {
  }

  lemma InstrumentReads(o: Fields, x: Instrument)
    ensures InstrumentFrom(Obj(o)) == Got(x) <==>
            && (if QuoteKey in o then o[QuoteKey].Text? && QuoteFromStr(o[QuoteKey].s) == Got(x.quote)
                else x.quote == ParRate)
            && QuoteNumbersReadAs(o, x) && FxNumbersReadAs(o, x) && PartsReadAs(o, NestedIn(x))
  {
    var quote, nested := QuoteFrom(o), NestedFrom(Obj(o));
    NumbersAre(o, x);
    if InstrumentFrom(Obj(o)) == Got(x) {
      InstrumentSplits(o, quote, nested, x);
      NestedHasParts(o, NestedIn(x));
    } else if PartsReadAs(o, NestedIn(x)) {
      PartsMakeNested(o, NestedIn(x));
    }
  }

  /** A component needs its instrument; its weight may be left out. */
  lemma ComponentReads(o: Fields, w: Weighted)
    ensures ComponentFrom(Obj(o)) == Got(w) <==>
            && InstrumentKey in o && InstrumentFrom(o[InstrumentKey]) == Got(w.instrument)
            && Real(o, Weight, 1.0, w.weight)
  {
    RealIs(o, Weight, 1.0, w.weight);
  }

  lemma NamesAre(o: Fields, k: Key, names: seq<string>)
    ensures List(o, k, AsText, names) <==> Names(o, k, names)
  {
    if k in o && o[k].Arr? && |o[k].items| == |names| {
      forall i | 0 <= i < |names| ensures AsText(o[k].items[i]) == Got(names[i]) <==> o[k].items[i] == Text(names[i]) {
      }
    }
  }

  lemma BundleReads(o: Fields, b: Bundle)
    ensures BundleFrom(Obj(o)) == Got(b) <==>
            && List(o, CurvesKey, CurveFrom, b.curves) && List(o, Instruments, InstrumentFrom, b.instruments)
            && List(o, Constraints, InstrumentFrom, b.constraints) && Names(o, CurrencyCodes, b.codes)
  {
    ListIs(o, CurvesKey, CurveFrom, b.curves);
    ListIs(o, Instruments, InstrumentFrom, b.instruments);
    ListIs(o, Constraints, InstrumentFrom, b.constraints);
    ListIs(o, CurrencyCodes, AsText, b.codes);
    NamesAre(o, CurrencyCodes, b.codes);
  }

  // ---- defaults, written and unwritten ----

  /** Only objects decode. */
  lemma OnlyObjectsDecode(j: Json)
    requires !j.Obj?
    ensures DayFrom(j) == Thrown && ObsFrom(j) == Thrown && CouponFrom(j) == Thrown && FixedCouponFrom(j) == Thrown
    ensures LegFrom(j) == Thrown && FixedLegFrom(j) == Thrown && RegionFrom(j) == Thrown && TurnFrom(j) == Thrown
    ensures CurveFrom(j) == Thrown && RefFrom(j) == Thrown && PenaltyFrom(j) == Thrown && InstrumentFrom(j) == Thrown
    ensures ComponentFrom(j) == Thrown && BundleFrom(j) == Thrown
  {
  }

  /** The empty document decodes to the struct as its constructor leaves it. */
  lemma EmptyDocuments()
    ensures DayFrom(Obj(map[])) == Got(FixingDay(0, 0.0, 0.0, 0.0, 1.0))
    ensures ObsFrom(Obj(map[])) == Got(PLAIN_OBS)
    ensures CouponFrom(Obj(map[])) ==
            Got(FloatCoupon(PLAIN_OBS, 0.0, 0.0, 0.0, 1.0, -1.0, false, 0.0, 0.0, -1.0, false, 0.0))
    ensures FixedCouponFrom(Obj(map[])) == Got(FixedCoupon(0.0, 0.0, 1.0))
    ensures LegFrom(Obj(map[])) == Got(PLAIN_LEG) && FixedLegFrom(Obj(map[])) == Got(FixedLeg([], 0))
    ensures RegionFrom(Obj(map[])) == Got(CurveModule([], Hermite, 0.0, -1.0))
    ensures TurnFrom(Obj(map[])) == Got(Turn(0.0, 0.0)) && RefFrom(Obj(map[])) == Got(StateRef(0, 0, 1.0))
  {
  }

  lemma EmptyCurveAndBundle()
    ensures CurveFrom(Obj(map[])) == Got(CurveSpec(-1, 0, -1.0, [], []))
    ensures BundleFrom(Obj(map[])) == Got(Bundle([], [], [], []))
  {
    assert RegionsRead(map[], [], [], [], []);
    CurveReads(map[], CurveSpec(-1, 0, -1.0, [], []));
  }

  lemma EmptyInstrument()
    ensures InstrumentFrom(Obj(map[])) ==
            Got(Instrument(ParRate, PLAIN_LEG, PLAIN_LEG, FixedLeg([], 0), PLAIN_LEG, PLAIN_OBS, 0, 0.0, 0.0, 0, -1, -1,
                           1.0, 0.0, 0.0, 0.0, 0.0, 1.0, None, 0, 0, [], []))
  {
  }

  /** A document with every default written in where it had no such field, or a null. */
  ghost function Filled(o: Fields, defaults: Fields): Fields {
    map k | k in o.Keys + defaults.Keys :: if k in defaults && Missing(o, k) then defaults[k] else o[k]
  }

  lemma RealFilled(o: Fields, ds: Fields, k: Key, default: real, v: real)
    requires k in ds && ds[k] == Num(default)
    ensures Real(Filled(o, ds), k, default, v) <==> Real(o, k, default, v)
  {
  }

  lemma WholeFilled(o: Fields, ds: Fields, k: Key, default: int, v: int)
    requires k in ds && ds[k] == Int(default)
    ensures Whole(Filled(o, ds), k, default, v) <==> Whole(o, k, default, v)
  {
  }

  lemma RealListFilled(o: Fields, ds: Fields, k: Key, xs: seq<real>)
    requires k in ds && ds[k] == Arr([])
    ensures RealList(Filled(o, ds), k, xs) <==> RealList(o, k, xs)
  {
  }

  lemma OtherFilled(o: Fields, ds: Fields, k: Key)
    requires k !in ds
    ensures Same(Filled(o, ds), o, k)
  {
  }

  lemma SameRead<T(!new)>(r: Read<T>, s: Read<T>)
    requires forall v :: r == Got(v) <==> s == Got(v)
    ensures r == s
  {
    if r.Got? {
      assert s == Got(r.value);
    }
    if s.Got? {
      assert r == Got(s.value);
    }
  }

  const DAY_DEFAULTS: Fields := map[FixingDate := Int(0), Accrual := Num(0.0), TStart := Num(0.0), TEnd := Num(0.0),
                                    Weight := Num(1.0)]

  lemma DayDefaults(o: Fields)
    ensures DayFrom(Obj(Filled(o, DAY_DEFAULTS))) == DayFrom(Obj(o))
  {
    var f := Filled(o, DAY_DEFAULTS);
    forall d ensures DayFrom(Obj(f)) == Got(d) <==> DayFrom(Obj(o)) == Got(d) {
      WholeFilled(o, DAY_DEFAULTS, FixingDate, 0, d.date);
      RealFilled(o, DAY_DEFAULTS, Accrual, 0.0, d.accrual);
      RealFilled(o, DAY_DEFAULTS, TStart, 0.0, d.start);
      RealFilled(o, DAY_DEFAULTS, TEnd, 0.0, d.end);
      RealFilled(o, DAY_DEFAULTS, Weight, 1.0, d.weight);
      DayReads(o, d);
      DayReads(f, d);
    }
    SameRead(DayFrom(Obj(f)), DayFrom(Obj(o)));
  }

  const OBS_DEFAULTS: Fields := map[SubStart := Arr([]), SubEnd := Arr([]), Weight := Arr([]), Realized := Num(0.0),
                                    TauIndex := Num(0.0), FixingStep := Num(0.0), FixingStep3 := Num(0.0),
                                    Compounded := Bool(false), RealizedFactor := Num(1.0), FixingIndex := Text("")]

  lemma ObsFilled(o: Fields, r: Observation)
    ensures var f := Filled(o, OBS_DEFAULTS);
            && (RealList(f, SubStart, r.subStart) <==> RealList(o, SubStart, r.subStart))
            && (RealList(f, SubEnd, r.subEnd) <==> RealList(o, SubEnd, r.subEnd))
            && (RealList(f, Weight, r.weight) <==> RealList(o, Weight, r.weight))
            && (Flag(f, Compounded, false, r.compounded) <==> Flag(o, Compounded, false, r.compounded))
            && (Name(f, FixingIndex, "", r.fixingIndex) <==> Name(o, FixingIndex, "", r.fixingIndex))
            && Same(f, o, FixingSchedule)
  {
    RealListFilled(o, OBS_DEFAULTS, SubStart, r.subStart);
    RealListFilled(o, OBS_DEFAULTS, SubEnd, r.subEnd);
    RealListFilled(o, OBS_DEFAULTS, Weight, r.weight);
    OtherFilled(o, OBS_DEFAULTS, FixingSchedule);
  }

  lemma ObsNumbersFilled(o: Fields, r: Observation)
    ensures var f := Filled(o, OBS_DEFAULTS);
            && (Real(f, Realized, 0.0, r.realized) <==> Real(o, Realized, 0.0, r.realized))
            && (Real(f, TauIndex, 0.0, r.tauIndex) <==> Real(o, TauIndex, 0.0, r.tauIndex))
            && (Real(f, FixingStep, 0.0, r.fixingStep) <==> Real(o, FixingStep, 0.0, r.fixingStep))
            && (Real(f, FixingStep3, 0.0, r.fixingStep3) <==> Real(o, FixingStep3, 0.0, r.fixingStep3))
            && (Real(f, RealizedFactor, 1.0, r.realizedFactor) <==> Real(o, RealizedFactor, 1.0, r.realizedFactor))
  {
    RealFilled(o, OBS_DEFAULTS, Realized, 0.0, r.realized);
    RealFilled(o, OBS_DEFAULTS, TauIndex, 0.0, r.tauIndex);
    RealFilled(o, OBS_DEFAULTS, FixingStep, 0.0, r.fixingStep);
    RealFilled(o, OBS_DEFAULTS, FixingStep3, 0.0, r.fixingStep3);
    RealFilled(o, OBS_DEFAULTS, RealizedFactor, 1.0, r.realizedFactor);
  }

  lemma ObsDefaults(o: Fields)
    ensures ObsFrom(Obj(Filled(o, OBS_DEFAULTS))) == ObsFrom(Obj(o))
  {
    var f := Filled(o, OBS_DEFAULTS);
    forall r ensures ObsFrom(Obj(f)) == Got(r) <==> ObsFrom(Obj(o)) == Got(r) {
      ObsFilled(o, r);
      ObsNumbersFilled(o, r);
      ObsReads(o, r);
      ObsReads(f, r);
    }
    SameRead(ObsFrom(Obj(f)), ObsFrom(Obj(o)));
  }

  const COUPON_DEFAULTS: Fields := map[Pay := Num(0.0), TauPay := Num(0.0), SpreadKey := Num(0.0),
                                       Scale := Num(1.0), ResetTime := Num(-1.0), ResetFx := Num(-1.0)]

  lemma CouponDefaults(o: Fields)
    ensures CouponFrom(Obj(Filled(o, COUPON_DEFAULTS))) == CouponFrom(Obj(o))
  {
    var f := Filled(o, COUPON_DEFAULTS);
    OtherFilled(o, COUPON_DEFAULTS, AccrualStart);
    OtherFilled(o, COUPON_DEFAULTS, AccrualEnd);
    OtherFilled(o, COUPON_DEFAULTS, FxFixingTime);
    OtherFilled(o, COUPON_DEFAULTS, ObsKey);
    forall c ensures CouponFrom(Obj(f)) == Got(c) <==> CouponFrom(Obj(o)) == Got(c) {
      RealFilled(o, COUPON_DEFAULTS, Pay, 0.0, c.pay);
      RealFilled(o, COUPON_DEFAULTS, TauPay, 0.0, c.tauPay);
      RealFilled(o, COUPON_DEFAULTS, SpreadKey, 0.0, c.spread);
      RealFilled(o, COUPON_DEFAULTS, Scale, 1.0, c.scale);
      RealFilled(o, COUPON_DEFAULTS, ResetTime, -1.0, c.resetTime);
      RealFilled(o, COUPON_DEFAULTS, ResetFx, -1.0, c.resetFx);
      CouponReads(o, c);
      CouponReads(f, c);
    }
    SameRead(CouponFrom(Obj(f)), CouponFrom(Obj(o)));
  }

  const FIXED_COUPON_DEFAULTS: Fields := map[Pay := Num(0.0), Tau := Num(0.0), Scale := Num(1.0)]

  lemma FixedCouponDefaults(o: Fields)
    ensures FixedCouponFrom(Obj(Filled(o, FIXED_COUPON_DEFAULTS))) == FixedCouponFrom(Obj(o))
  {
    var f := Filled(o, FIXED_COUPON_DEFAULTS);
    forall c ensures FixedCouponFrom(Obj(f)) == Got(c) <==> FixedCouponFrom(Obj(o)) == Got(c) {
      RealFilled(o, FIXED_COUPON_DEFAULTS, Pay, 0.0, c.pay);
      RealFilled(o, FIXED_COUPON_DEFAULTS, Tau, 0.0, c.tau);
      RealFilled(o, FIXED_COUPON_DEFAULTS, Scale, 1.0, c.scale);
      FixedCouponReads(o, c);
      FixedCouponReads(f, c);
    }
    SameRead(FixedCouponFrom(Obj(f)), FixedCouponFrom(Obj(o)));
  }

  const LEG_DEFAULTS: Fields := map[Forecast := Int(0), Discount := Int(0), ResetNum := Int(-1),
                                    ResetDen := Int(-1), FxSpot := Num(1.0), FxSpotTime := Num(0.0)]

  lemma LegDefaults(o: Fields)
    ensures LegFrom(Obj(Filled(o, LEG_DEFAULTS))) == LegFrom(Obj(o))
  {
    var f := Filled(o, LEG_DEFAULTS);
    OtherFilled(o, LEG_DEFAULTS, Coupons);
    forall l ensures LegFrom(Obj(f)) == Got(l) <==> LegFrom(Obj(o)) == Got(l) {
      WholeFilled(o, LEG_DEFAULTS, Forecast, 0, l.forecast);
      WholeFilled(o, LEG_DEFAULTS, Discount, 0, l.discount);
      WholeFilled(o, LEG_DEFAULTS, ResetNum, -1, l.resetNum);
      WholeFilled(o, LEG_DEFAULTS, ResetDen, -1, l.resetDen);
      RealFilled(o, LEG_DEFAULTS, FxSpot, 1.0, l.fxSpot);
      RealFilled(o, LEG_DEFAULTS, FxSpotTime, 0.0, l.fxSpotTime);
      LegReads(o, l);
      LegReads(f, l);
    }
    SameRead(LegFrom(Obj(f)), LegFrom(Obj(o)));
  }

  const FIXED_LEG_DEFAULTS: Fields := map[Discount := Int(0)]

  lemma FixedLegDefaults(o: Fields)
    ensures FixedLegFrom(Obj(Filled(o, FIXED_LEG_DEFAULTS))) == FixedLegFrom(Obj(o))
  {
    var f := Filled(o, FIXED_LEG_DEFAULTS);
    OtherFilled(o, FIXED_LEG_DEFAULTS, Coupons);
    forall l ensures FixedLegFrom(Obj(f)) == Got(l) <==> FixedLegFrom(Obj(o)) == Got(l) {
      WholeFilled(o, FIXED_LEG_DEFAULTS, Discount, 0, l.discount);
      FixedLegReads(o, l);
      FixedLegReads(f, l);
    }
    SameRead(FixedLegFrom(Obj(f)), FixedLegFrom(Obj(o)));
  }

  const REGION_DEFAULTS: Fields := map[KnotsKey := Arr([]), Sigma := Num(0.0), RegLambda := Num(-1.0)]

  lemma RegionDefaults(o: Fields)
    ensures RegionFrom(Obj(Filled(o, REGION_DEFAULTS))) == RegionFrom(Obj(o))
  {
    var f := Filled(o, REGION_DEFAULTS);
    OtherFilled(o, REGION_DEFAULTS, SchemeKey);
    OtherFilled(o, REGION_DEFAULTS, RegSigma);
    forall m ensures RegionFrom(Obj(f)) == Got(m) <==> RegionFrom(Obj(o)) == Got(m) {
      RealListFilled(o, REGION_DEFAULTS, KnotsKey, m.knots);
      RealFilled(o, REGION_DEFAULTS, Sigma, 0.0, m.sigma);
      RealFilled(o, REGION_DEFAULTS, RegLambda, -1.0, m.regLambda);
      RegionReads(o, m);
      RegionReads(f, m);
    }
    SameRead(RegionFrom(Obj(f)), RegionFrom(Obj(o)));
  }

  const TURN_DEFAULTS: Fields := map[StartKey := Num(0.0), EndKey := Num(0.0)]

  lemma TurnDefaults(o: Fields)
    ensures TurnFrom(Obj(Filled(o, TURN_DEFAULTS))) == TurnFrom(Obj(o))
  {
    var f := Filled(o, TURN_DEFAULTS);
    forall t ensures TurnFrom(Obj(f)) == Got(t) <==> TurnFrom(Obj(o)) == Got(t) {
      RealFilled(o, TURN_DEFAULTS, StartKey, 0.0, t.start);
      RealFilled(o, TURN_DEFAULTS, EndKey, 0.0, t.end);
      TurnReads(o, t);
      TurnReads(f, t);
    }
    SameRead(TurnFrom(Obj(f)), TurnFrom(Obj(o)));
  }

  const REF_DEFAULTS: Fields := map[CurveKey := Int(0), IndexKey := Int(0), Coeff := Num(1.0)]

  lemma RefDefaults(o: Fields)
    ensures RefFrom(Obj(Filled(o, REF_DEFAULTS))) == RefFrom(Obj(o))
  {
    var f := Filled(o, REF_DEFAULTS);
    forall r ensures RefFrom(Obj(f)) == Got(r) <==> RefFrom(Obj(o)) == Got(r) {
      WholeFilled(o, REF_DEFAULTS, CurveKey, 0, r.curve);
      WholeFilled(o, REF_DEFAULTS, IndexKey, 0, r.index);
      RealFilled(o, REF_DEFAULTS, Coeff, 1.0, r.coeff);
      RefReads(o, r);
      RefReads(f, r);
    }
    SameRead(RefFrom(Obj(f)), RefFrom(Obj(o)));
  }

  const COMPONENT_DEFAULTS: Fields := map[Weight := Num(1.0)]

  lemma ComponentDefaults(o: Fields)
    ensures ComponentFrom(Obj(Filled(o, COMPONENT_DEFAULTS))) == ComponentFrom(Obj(o))
  {
    var f := Filled(o, COMPONENT_DEFAULTS);
    OtherFilled(o, COMPONENT_DEFAULTS, InstrumentKey);
    forall w ensures ComponentFrom(Obj(f)) == Got(w) <==> ComponentFrom(Obj(o)) == Got(w) {
      RealFilled(o, COMPONENT_DEFAULTS, Weight, 1.0, w.weight);
      ComponentReads(o, w);
      ComponentReads(f, w);
    }
    SameRead(ComponentFrom(Obj(f)), ComponentFrom(Obj(o)));
  }

  const CURVE_DEFAULTS: Fields := map[Base := Int(-1), Currency := Int(0), FixingTenor := Num(-1.0),
                                      Meeting := Arr([]), Back := Arr([])]

  lemma CurveDefaults(o: Fields)
    ensures CurveFrom(Obj(Filled(o, CURVE_DEFAULTS))) == CurveFrom(Obj(o))
  {
    var f := Filled(o, CURVE_DEFAULTS);
    OtherFilled(o, CURVE_DEFAULTS, Regions);
    OtherFilled(o, CURVE_DEFAULTS, TurnsKey);
    forall regions, front, back, own
      ensures RegionsRead(f, regions, front, back, own) <==> RegionsRead(o, regions, front, back, own)
    {
      RealListFilled(o, CURVE_DEFAULTS, Meeting, front);
      RealListFilled(o, CURVE_DEFAULTS, Back, back);
    }
    forall s ensures CurveFrom(Obj(f)) == Got(s) <==> CurveFrom(Obj(o)) == Got(s) {
      WholeFilled(o, CURVE_DEFAULTS, Base, -1, s.base);
      WholeFilled(o, CURVE_DEFAULTS, Currency, 0, s.currency);
      RealFilled(o, CURVE_DEFAULTS, FixingTenor, -1.0, s.fixingTenor);
      CurveReads(o, s);
      CurveReads(f, s);
    }
    SameRead(CurveFrom(Obj(f)), CurveFrom(Obj(o)));
  }

  const INSTRUMENT_DEFAULTS: Fields := map[Forecast := Int(0), Convexity := Num(0.0), Market := Num(0.0),
                                           PvCurrency := Int(0), FxNum := Int(-1), FxDen := Int(-1),
                                           FxSpot := Num(1.0), FxTime := Num(0.0), FxSpotTime := Num(0.0),
                                           BandLower := Num(0.0), BandUpper := Num(0.0), BandDecay := Num(1.0),
                                           TurnCurve := Int(0), TurnIndex := Int(0)]

  lemma QuoteNumbersFilled(o: Fields, f: Fields, x: Instrument)
    requires f == Filled(o, INSTRUMENT_DEFAULTS)
    ensures QuoteNumbersReadAs(f, x) <==> QuoteNumbersReadAs(o, x)
  {
    WholeFilled(o, INSTRUMENT_DEFAULTS, Forecast, 0, x.forecast);
    RealFilled(o, INSTRUMENT_DEFAULTS, Convexity, 0.0, x.convexity);
    RealFilled(o, INSTRUMENT_DEFAULTS, Market, 0.0, x.market);
    WholeFilled(o, INSTRUMENT_DEFAULTS, PvCurrency, 0, x.pvCurrency);
    RealFilled(o, INSTRUMENT_DEFAULTS, BandLower, 0.0, x.lower);
    RealFilled(o, INSTRUMENT_DEFAULTS, BandUpper, 0.0, x.upper);
    RealFilled(o, INSTRUMENT_DEFAULTS, BandDecay, 1.0, x.decay);
  }

  lemma FxNumbersFilled(o: Fields, f: Fields, x: Instrument)
    requires f == Filled(o, INSTRUMENT_DEFAULTS)
    ensures FxNumbersReadAs(f, x) <==> FxNumbersReadAs(o, x)
  {
    WholeFilled(o, INSTRUMENT_DEFAULTS, FxNum, -1, x.fxNum);
    WholeFilled(o, INSTRUMENT_DEFAULTS, FxDen, -1, x.fxDen);
    RealFilled(o, INSTRUMENT_DEFAULTS, FxSpot, 1.0, x.fxSpot);
    RealFilled(o, INSTRUMENT_DEFAULTS, FxTime, 0.0, x.fxTime);
    RealFilled(o, INSTRUMENT_DEFAULTS, FxSpotTime, 0.0, x.fxSpotTime);
    WholeFilled(o, INSTRUMENT_DEFAULTS, TurnCurve, 0, x.turnCurve);
    WholeFilled(o, INSTRUMENT_DEFAULTS, TurnIndex, 0, x.turnIndex);
  }

  lemma StructStands<T>(o: Fields, f: Fields, k: Key, read: Json -> Read<T>, default: T, v: T)
    requires Same(f, o, k)
    ensures Struct(f, k, read, default, v) <==> Struct(o, k, read, default, v)
  {
  }

  lemma ListStands<T>(o: Fields, f: Fields, k: Key, read: Json -> Read<T>, xs: seq<T>)
    requires Same(f, o, k)
    ensures List(f, k, read, xs) <==> List(o, k, read, xs)
  {
  }

  lemma PartsStand(o: Fields, f: Fields, n: Nested)
    requires forall k :: IsPart(k) ==> Same(f, o, k)
    ensures PartsReadAs(f, n) <==> PartsReadAs(o, n)
  {
    StructStands(o, f, Fwd, LegFrom, PLAIN_LEG, n.fwd);
    StructStands(o, f, Bench, LegFrom, PLAIN_LEG, n.bench);
    StructStands(o, f, Fixed, FixedLegFrom, FixedLeg([], 0), n.fixed);
    StructStands(o, f, Mtm, LegFrom, PLAIN_LEG, n.mtm);
    StructStands(o, f, ObsKey, ObsFrom, PLAIN_OBS, n.obs);
    assert Same(f, o, Penalty);
    ListStands(o, f, StateKey, RefFrom, n.state);
    ListStands(o, f, Combination, ComponentFrom, n.combination);
  }

  lemma PartsHaveNoDefault(k: Key)
    requires IsPart(k)
    ensures k !in INSTRUMENT_DEFAULTS
  {
  }

  lemma InstrumentDefaults(o: Fields)
    ensures InstrumentFrom(Obj(Filled(o, INSTRUMENT_DEFAULTS))) == InstrumentFrom(Obj(o))
  {
    var f := Filled(o, INSTRUMENT_DEFAULTS);
    forall k | IsPart(k) ensures Same(f, o, k) {
      PartsHaveNoDefault(k);
      OtherFilled(o, INSTRUMENT_DEFAULTS, k);
    }
    assert Same(f, o, QuoteKey);
    forall x ensures InstrumentFrom(Obj(f)) == Got(x) <==> InstrumentFrom(Obj(o)) == Got(x) {
      QuoteNumbersFilled(o, f, x);
      FxNumbersFilled(o, f, x);
      PartsStand(o, f, NestedIn(x));
      InstrumentReads(o, x);
      InstrumentReads(f, x);
    }
    SameRead(InstrumentFrom(Obj(f)), InstrumentFrom(Obj(o)));
  }
}
