/** Encoders and decoders of a bundle's parts (api/codec.cpp): decoding an encoded value gives its normal form, and
    encoding that again gives the same document. */
module Codec {
  import opened CodecModel
  import opened Curves
  import opened Wrappers

  // ---- rate observations ----

  function DayTo(d: FixingDay): Json {
    Obj(map[FixingDate := Int(d.date), Accrual := Num(d.accrual), TStart := Num(d.start), TEnd := Num(d.end),
            Weight := Num(d.weight)])
  }

  function DayFrom(j: Json): Read<FixingDay> {
    var o :- AsObj(j);
    var date :- IntAt(o, FixingDate, 0);
    var accrual :- RealAt(o, Accrual, 0.0);
    var start :- RealAt(o, TStart, 0.0);
    var end :- RealAt(o, TEnd, 0.0);
    var weight :- RealAt(o, Weight, 1.0);
    Got(FixingDay(date, accrual, start, end, weight))
  }

  function ObsFields(r: Observation, schedule: Json): Fields {
    var o := map[SubStart := Reals(r.subStart), SubEnd := Reals(r.subEnd), Weight := Reals(r.weight),
                 Realized := Num(r.realized),
                 TauIndex := Num(r.tauIndex), FixingStep := Num(r.fixingStep), FixingStep3 := Num(r.fixingStep3),
                 Compounded := Bool(r.compounded), RealizedFactor := Num(r.realizedFactor)];
    if |r.schedule| == 0 then o else o[FixingIndex := Text(r.fixingIndex)][FixingSchedule := schedule]
  }

  function ObsTo(r: Observation): Json {
    Obj(ObsFields(r, Arr(Mapped(r.schedule, DayTo))))
  }

  /** The numbers of an observation, then its index name, around what its list fields read as. */
  function ObsOf(o: Fields, subStart: Read<seq<real>>, subEnd: Read<seq<real>>, weights: Read<seq<real>>,
                 schedule: Read<seq<FixingDay>>): Read<Observation> {
    var subStart :- subStart;
    var subEnd :- subEnd;
    var weight :- weights;
    var realized :- RealAt(o, Realized, 0.0);
    var tauIndex :- RealAt(o, TauIndex, 0.0);
    var fixingStep :- RealAt(o, FixingStep, 0.0);
    var fixingStep3 :- RealAt(o, FixingStep3, 0.0);
    var compounded :- BoolAt(o, Compounded, false);
    var realizedFactor :- RealAt(o, RealizedFactor, 1.0);
    var fixingIndex :- TextAt(o, FixingIndex, "");
    var schedule :- schedule;
    Got(Observation(subStart, subEnd, weight, realized, tauIndex, fixingStep, fixingStep3, compounded, realizedFactor,
                    fixingIndex, schedule, false))
  }

  function ObsFrom(j: Json): Read<Observation> {
    var o :- AsObj(j);
    ObsOf(o, RealsAt(o, SubStart), RealsAt(o, SubEnd), RealsAt(o, Weight), ListAt(o, FixingSchedule, DayFrom))
  }

  /** An index name travels only with a schedule; whether an observation was resolved never does. */
  function NormObs(r: Observation): Observation {
    r.(fixingIndex := if |r.schedule| == 0 then "" else r.fixingIndex, resolved := false)
  }

  lemma DaysRead(days: seq<FixingDay>)
    ensures ReadAll(Mapped(days, DayTo), DayFrom) == Got(days)
  {
    var back := (d: FixingDay) => d;
    ReadsAll(days, DayTo, DayFrom, back);
    assert Mapped(days, back) == days;
  }

  lemma ObsFieldsRead(r: Observation, schedule: Json)
    ensures ObsOf(ObsFields(r, schedule), Got(r.subStart), Got(r.subEnd), Got(r.weight), Got(r.schedule)) ==
      Got(NormObs(r))
  {
  }

  lemma ObsListsStand(r: Observation, schedule: Json)
    ensures var o := ObsFields(r, schedule);
            && Present(o, SubStart) && o[SubStart] == Reals(r.subStart) && Present(o, SubEnd)
            && o[SubEnd] == Reals(r.subEnd)
            && Present(o, Weight) && o[Weight] == Reals(r.weight)
            && (if |r.schedule| == 0 then FixingSchedule !in o
                else FixingSchedule in o && o[FixingSchedule] == schedule)
  {
  }

  lemma ObsRoundTrip(r: Observation)
    ensures ObsFrom(ObsTo(r)) == Got(NormObs(r)) && ObsTo(NormObs(r)) == ObsTo(r)
  {
    ObsFieldsRead(r, Arr(Mapped(r.schedule, DayTo)));
    ObsListsStand(r, Arr(Mapped(r.schedule, DayTo)));
    ReadsReals(r.subStart);
    ReadsReals(r.subEnd);
    ReadsReals(r.weight);
    DaysRead(r.schedule);
  }

  // ---- coupons and legs ----

  /** The accrual period is the observation window, so it need not be written. */
  predicate SameAsWindow(c: FloatCoupon) {
    && |c.obs.subStart| != 0 && |c.obs.subEnd| != 0
    && c.accrualStart == c.obs.subStart[0] && c.accrualEnd == c.obs.subEnd[|c.obs.subEnd| - 1]
  }

  predicate WritesAccrual(c: FloatCoupon) {
    c.accrualSet && !SameAsWindow(c)
  }

  function CouponFields(c: FloatCoupon, accrual: bool, obs: Json): Fields {
    var o := map[ObsKey := obs, Pay := Num(c.pay), TauPay := Num(c.tauPay), SpreadKey := Num(c.spread),
                 Scale := Num(c.scale), ResetTime := Num(c.resetTime)];
    var o := if accrual then o[AccrualStart := Num(c.accrualStart)][AccrualEnd := Num(c.accrualEnd)] else o;
    var o := if c.resetFx >= 0.0 then o[ResetFx := Num(c.resetFx)] else o;
    if c.fxFixingSet then o[FxFixingTime := Num(c.fxFixingTime)] else o
  }

  function CouponTo(c: FloatCoupon): Json {
    Obj(CouponFields(c, WritesAccrual(c), ObsTo(c.obs)))
  }

  function CouponOf(o: Fields, obs: Read<Observation>): Read<FloatCoupon> {
    var obs :- obs;
    var pay :- RealAt(o, Pay, 0.0);
    var tauPay :- RealAt(o, TauPay, 0.0);
    var spread :- RealAt(o, SpreadKey, 0.0);
    var scale :- RealAt(o, Scale, 1.0);
    var resetTime :- RealAt(o, ResetTime, -1.0);
    var accrualSet := AccrualStart in o && AccrualEnd in o;
    var accrualStart :- if accrualSet then RealAt(o, AccrualStart, 0.0) else Got(0.0);
    var accrualEnd :- if accrualSet then RealAt(o, AccrualEnd, 0.0) else Got(0.0);
    var resetFx :- RealAt(o, ResetFx, -1.0);
    var fxFixingTime :- RealAt(o, FxFixingTime, 0.0);
    Got(FloatCoupon(obs, pay, tauPay, spread, scale, resetTime, accrualSet, accrualStart, accrualEnd, resetFx,
                    FxFixingTime in o, fxFixingTime))
  }

  function CouponFrom(j: Json): Read<FloatCoupon> {
    var o :- AsObj(j);
    CouponOf(o, if ObsKey in o then ObsFrom(o[ObsKey]) else Got(NO_OBSERVATION))
  }

  /** Accrual dates equal to the window are the window's; an unset reset is the one unset value. */
  function NormCoupon(c: FloatCoupon): FloatCoupon {
    NormDates(c.(obs := NormObs(c.obs)), WritesAccrual(c))
  }

  function NormDates(c: FloatCoupon, accrual: bool): FloatCoupon {
    c.(accrualSet := accrual, accrualStart := if accrual then c.accrualStart else 0.0,
       accrualEnd := if accrual then c.accrualEnd else 0.0,
       resetFx := if c.resetFx >= 0.0 then c.resetFx else -1.0,
       fxFixingTime := if c.fxFixingSet then c.fxFixingTime else 0.0)
  }

  /** The period a coupon accrues over: its own dates when set, otherwise its observation window. */
  function EffectiveAccrual(c: FloatCoupon): Option<(real, real)> {
    if c.accrualSet then Some((c.accrualStart, c.accrualEnd))
    else if |c.obs.subStart| != 0 && |c.obs.subEnd| != 0 then
      Some((c.obs.subStart[0], c.obs.subEnd[|c.obs.subEnd| - 1]))
    else None
  }

  lemma CouponFieldsRead(c: FloatCoupon, accrual: bool, obs: Json, r: Observation)
    ensures CouponOf(CouponFields(c, accrual, obs), Got(r)) == Got(NormDates(c.(obs := r), accrual))
  {
  }

  lemma CouponFieldsRewrite(c: FloatCoupon, accrual: bool, obs: Json, r: Observation)
    ensures var o := CouponFields(c, accrual, obs);
            ObsKey in o && o[ObsKey] == obs && CouponFields(NormDates(c.(obs := r), accrual), accrual, obs) == o
  {
  }

  /** A coupon comes back in normal form, accruing over the same period, and writes the same document. */
  lemma CouponRoundTrip(c: FloatCoupon)
    ensures CouponFrom(CouponTo(c)) == Got(NormCoupon(c)) && CouponTo(NormCoupon(c)) == CouponTo(c)
    ensures EffectiveAccrual(NormCoupon(c)) == EffectiveAccrual(c)
  {
    ObsRoundTrip(c.obs);
    CouponFieldsRead(c, WritesAccrual(c), ObsTo(c.obs), NormObs(c.obs));
    CouponFieldsRewrite(c, WritesAccrual(c), ObsTo(c.obs), NormObs(c.obs));
    assert WritesAccrual(NormCoupon(c)) == WritesAccrual(c);
  }

  lemma CouponsRoundTrip(cs: seq<FloatCoupon>)
    ensures ReadAll(Mapped(cs, CouponTo), CouponFrom) == Got(Mapped(cs, NormCoupon))
    ensures Mapped(Mapped(cs, NormCoupon), CouponTo) == Mapped(cs, CouponTo)
  {
    forall i | 0 <= i < |cs|
      ensures CouponFrom(CouponTo(cs[i])) == Got(NormCoupon(cs[i])) && CouponTo(NormCoupon(cs[i])) == CouponTo(cs[i])
    {
      CouponRoundTrip(cs[i]);
    }
    ReadsAll(cs, CouponTo, CouponFrom, NormCoupon);
    assert Mapped(Mapped(cs, NormCoupon), CouponTo) == Mapped(cs, CouponTo);
  }

  function FixedCouponTo(c: FixedCoupon): Json {
    Obj(map[Pay := Num(c.pay), Tau := Num(c.tau), Scale := Num(c.scale)])
  }

  function FixedCouponFrom(j: Json): Read<FixedCoupon> {
    var o :- AsObj(j);
    var pay :- RealAt(o, Pay, 0.0);
    var tau :- RealAt(o, Tau, 0.0);
    var scale :- RealAt(o, Scale, 1.0);
    Got(FixedCoupon(pay, tau, scale))
  }

  function LegFields(l: FloatLeg, coupons: Json): Fields {
    var o := map[Coupons := coupons, Forecast := Int(l.forecast), Discount := Int(l.discount),
                 ResetNum := Int(l.resetNum), ResetDen := Int(l.resetDen), FxSpot := Num(l.fxSpot)];
    if l.fxSpotTime != 0.0 then o[FxSpotTime := Num(l.fxSpotTime)] else o
  }

  function LegTo(l: FloatLeg): Json {
    Obj(LegFields(l, Arr(Mapped(l.coupons, CouponTo))))
  }

  function LegOf(o: Fields, coupons: Read<seq<FloatCoupon>>): Read<FloatLeg> {
    var coupons :- coupons;
    var forecast :- IntAt(o, Forecast, 0);
    var discount :- IntAt(o, Discount, 0);
    var resetNum :- IntAt(o, ResetNum, -1);
    var resetDen :- IntAt(o, ResetDen, -1);
    var fxSpot :- RealAt(o, FxSpot, 1.0);
    var fxSpotTime :- RealAt(o, FxSpotTime, 0.0);
    Got(FloatLeg(coupons, forecast, discount, resetNum, resetDen, fxSpot, fxSpotTime))
  }

  function LegFrom(j: Json): Read<FloatLeg> {
    var o :- AsObj(j);
    LegOf(o, ListAt(o, Coupons, CouponFrom))
  }

  function NormLeg(l: FloatLeg): FloatLeg {
    l.(coupons := Mapped(l.coupons, NormCoupon))
  }

  lemma LegFieldsRead(l: FloatLeg, coupons: Json, cs: seq<FloatCoupon>)
    ensures var o := LegFields(l, coupons);
            && LegOf(o, Got(cs)) == Got(l.(coupons := cs)) && Coupons in o && o[Coupons] == coupons
            && LegFields(l.(coupons := cs), coupons) == o
  {
  }

  lemma LegRoundTrip(l: FloatLeg)
    ensures LegFrom(LegTo(l)) == Got(NormLeg(l)) && LegTo(NormLeg(l)) == LegTo(l)
  {
    CouponsRoundTrip(l.coupons);
    LegFieldsRead(l, Arr(Mapped(l.coupons, CouponTo)), Mapped(l.coupons, NormCoupon));
  }

  function FixedLegTo(l: FixedLeg): Json {
    Obj(map[Coupons := Arr(Mapped(l.coupons, FixedCouponTo)), Discount := Int(l.discount)])
  }

  function FixedLegFrom(j: Json): Read<FixedLeg> {
    var o :- AsObj(j);
    var coupons :- ListAt(o, Coupons, FixedCouponFrom);
    var discount :- IntAt(o, Discount, 0);
    Got(FixedLeg(coupons, discount))
  }

  lemma FixedLegRoundTrip(l: FixedLeg)
    ensures FixedLegFrom(FixedLegTo(l)) == Got(l)
  {
    var back := (c: FixedCoupon) => c;
    ReadsAll(l.coupons, FixedCouponTo, FixedCouponFrom, back);
    assert Mapped(l.coupons, back) == l.coupons;
  }

  // ---- curves ----

  function RegionTo(m: CurveModule): Json {
    var o := map[SchemeKey := Text(SchemeToStr(m.scheme)), KnotsKey := Reals(m.knots)];
    var o := if m.scheme.Tension? then o[Sigma := Num(m.sigma)] else o;
    Obj(if m.regLambda >= 0.0 then o[RegLambda := Num(m.regLambda)] else o)
  }

  function SchemeFrom(j: Json): Read<Scheme> {
    var s :- AsText(j);
    if SchemeFromStr(s).Some? then Got(SchemeFromStr(s).value) else Thrown
  }

  function RegionFrom(j: Json): Read<CurveModule> {
    var o :- AsObj(j);
    var scheme :- if SchemeKey in o then SchemeFrom(o[SchemeKey]) else Got(Hermite);
    var knots :- RealsAt(o, KnotsKey);
    var sigma :- RealAt(o, Sigma, 0.0);
    var regLambda :- RealAt(o, RegLambda, UNSET_LAMBDA);
    var retired :- if RegSigma in o then AsReal(o[RegSigma]) else Got(-1.0);
    if retired >= 0.0 then Thrown else Got(CurveModule(knots, scheme, sigma, regLambda))
  }

  /** A tension only on a Tension region; an unset smoothing weight is the one unset value. */
  function NormRegion(m: CurveModule): CurveModule {
    CurveModule(m.knots, m.scheme, if m.scheme.Tension? then m.sigma else 0.0,
                if m.regLambda >= 0.0 then m.regLambda else UNSET_LAMBDA)
  }

  lemma RegionRoundTrip(m: CurveModule)
    ensures RegionFrom(RegionTo(m)) == Got(NormRegion(m)) && RegionTo(NormRegion(m)) == RegionTo(m)
  {
    Spelled(m.scheme);
    ReadsReals(m.knots);
  }

  /** A decoded region is its own normal form exactly when it carries what an encoder would write: no tension but on a
      Tension region, and no negative smoothing weight but the unset one. */
  lemma DecodedRegionIsNormalIff(j: Json)
    requires RegionFrom(j).Got?
    ensures var m := RegionFrom(j).value;
            NormRegion(m) == m <==>
            (m.scheme.Tension? || m.sigma == 0.0) && (m.regLambda >= 0.0 || m.regLambda == UNSET_LAMBDA)
  {
  }

  /** A hand-written document's need not be: a Flat region that gives a tension decodes to one. */
  lemma HandWrittenRegionIsNotNormal()
    ensures var m := RegionFrom(Obj(map[SchemeKey := Text("Flat"), Sigma := Num(0.5)]));
            m.Got? && m.value.sigma == 0.5 && NormRegion(m.value) != m.value
  {
    Spelled(Flat);
  }

  lemma RegionsRoundTrip(ms: seq<CurveModule>)
    ensures ReadAll(Mapped(ms, RegionTo), RegionFrom) == Got(Mapped(ms, NormRegion))
    ensures Mapped(Mapped(ms, NormRegion), RegionTo) == Mapped(ms, RegionTo)
  {
    forall i | 0 <= i < |ms|
      ensures RegionFrom(RegionTo(ms[i])) == Got(NormRegion(ms[i])) && RegionTo(NormRegion(ms[i])) == RegionTo(ms[i])
    {
      RegionRoundTrip(ms[i]);
    }
    ReadsAll(ms, RegionTo, RegionFrom, NormRegion);
    assert Mapped(Mapped(ms, NormRegion), RegionTo) == Mapped(ms, RegionTo);
  }

  function TurnTo(t: Turn): Json {
    Obj(map[StartKey := Num(t.start), EndKey := Num(t.end)])
  }

  function TurnFrom(j: Json): Read<Turn> {
    var o :- AsObj(j);
    var start :- RealAt(o, StartKey, 0.0);
    var end :- RealAt(o, EndKey, 0.0);
    Got(Turn(start, end))
  }

  lemma TurnsRead(ts: seq<Turn>)
    ensures ReadAll(Mapped(ts, TurnTo), TurnFrom) == Got(ts)
  {
    var back := (t: Turn) => t;
    ReadsAll(ts, TurnTo, TurnFrom, back);
    assert Mapped(ts, back) == ts;
  }

  function CurveFields(s: CurveSpec, regions: Json, turns: Json): Fields {
    var o := map[Base := Int(s.base), Currency := Int(s.currency), Regions := regions];
    var o := if s.fixingTenor > 0.0 then o[FixingTenor := Num(s.fixingTenor)] else o;
    if |s.turns| != 0 then o[TurnsKey := turns] else o
  }

  function CurveTo(s: CurveSpec): Json {
    Obj(CurveFields(s, Arr(Mapped(s.regions, RegionTo)), Arr(Mapped(s.turns, TurnTo))))
  }

  function CurveOf(o: Fields, meeting: Read<seq<real>>, back: Read<seq<real>>, regions: Read<seq<CurveModule>>,
                   turns: Read<seq<Turn>>): Read<CurveSpec> {
    var meeting :- meeting;
    var back :- back;
    var base :- IntAt(o, Base, -1);
    var currency :- IntAt(o, Currency, 0);
    var fixingTenor :- RealAt(o, FixingTenor, -1.0);
    var regions :- regions;
    var turns :- turns;
    Got(CurveSpec(base, currency, fixingTenor, if |regions| == 0 then FlatHermite(meeting, back) else regions, turns))
  }

  function CurveFrom(j: Json): Read<CurveSpec> {
    var o :- AsObj(j);
    CurveOf(o, RealsAt(o, Meeting), RealsAt(o, Back), ListAt(o, Regions, RegionFrom), ListAt(o, TurnsKey, TurnFrom))
  }

  function NormCurve(s: CurveSpec): CurveSpec {
    s.(fixingTenor := if s.fixingTenor > 0.0 then s.fixingTenor else -1.0, regions := Mapped(s.regions, NormRegion))
  }

  lemma CurveFieldsRead(s: CurveSpec, regions: Json, turns: Json, ms: seq<CurveModule>)
    requires |ms| == |s.regions|
    ensures var o, n := CurveFields(s, regions, turns),
      s.(fixingTenor := if s.fixingTenor > 0.0 then s.fixingTenor else -1.0, regions := ms);
            && CurveOf(o, Got([]), Got([]), Got(ms), Got(s.turns)) == Got(n)
            && Meeting !in o && Back !in o && Regions in o && o[Regions] == regions
            && (if |s.turns| == 0 then TurnsKey !in o else TurnsKey in o && o[TurnsKey] == turns)
            && CurveFields(n, regions, turns) == o
  {
    assert |ms| == 0 ==> FlatHermite([], []) == ms;
  }

  lemma CurveRoundTrip(s: CurveSpec)
    ensures CurveFrom(CurveTo(s)) == Got(NormCurve(s)) && CurveTo(NormCurve(s)) == CurveTo(s)
  {
    RegionsRoundTrip(s.regions);
    TurnsRead(s.turns);
    CurveFieldsRead(s, Arr(Mapped(s.regions, RegionTo)), Arr(Mapped(s.turns, TurnTo)), Mapped(s.regions, NormRegion));
  }

  /** A legacy document, its knots named meeting and back, reads as the two-region layout, and is written as regions. */
  lemma LegacyReadsAsRegions(base: int, currency: int, meeting: seq<real>, back: seq<real>)
    ensures var doc := Obj(map[Base := Int(base), Currency := Int(currency), Meeting := Reals(meeting),
                               Back := Reals(back)]);
            var s := CurveSpec(base, currency, -1.0, FlatHermite(meeting, back), []);
            && CurveFrom(doc) == Got(s) && CurveFrom(CurveTo(s)) == Got(s)
            && Meeting !in CurveTo(s).fields && Back !in CurveTo(s).fields
  {
    ReadsReals(meeting);
    ReadsReals(back);
    var s := CurveSpec(base, currency, -1.0, FlatHermite(meeting, back), []);
    CurveRoundTrip(s);
    CurveFieldsRead(s, Arr(Mapped(s.regions, RegionTo)), Arr(Mapped(s.turns, TurnTo)), Mapped(s.regions, NormRegion));
    assert Mapped(s.regions, NormRegion) == s.regions;
  }
}
