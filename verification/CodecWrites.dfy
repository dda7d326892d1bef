/** Which names an encoder writes: a document carries a field that has a default only where the value needs it, so that
    the documents of the common case stay as short as they always were. */
module CodecWrites {
  import opened BundleCodec
  import opened Codec
  import opened CodecModel
  import opened Curves
  import opened Wrappers

  ghost predicate AllNums(o: Fields, keys: set<Key>) {
    forall k :: k in keys ==> k in o && o[k].Num?
  }

  /** An observation names its index and its schedule only when it has a schedule. */
  lemma ObsWrites(r: Observation)
    ensures var o := ObsTo(r).fields;
            && (forall k :: k in o <==>
                  || k in {SubStart, SubEnd, Weight, Realized, TauIndex, FixingStep, FixingStep3, Compounded,
                           RealizedFactor}
                  || (k in {FixingIndex, FixingSchedule} && r.schedule != []))
            && AllNums(o, {Realized, TauIndex, FixingStep, FixingStep3, RealizedFactor})
  {
  }

  lemma CouponKeys(c: FloatCoupon, accrual: bool, obs: Json)
    ensures forall k :: k in CouponFields(c, accrual, obs) <==>
      || k in {ObsKey, Pay, TauPay, SpreadKey, Scale, ResetTime} || (k in {AccrualStart, AccrualEnd} && accrual)
      || (k == ResetFx && c.resetFx >= 0.0) || (k == FxFixingTime && c.fxFixingSet)
  {
  }

  lemma CouponNumbers(c: FloatCoupon, accrual: bool, obs: Json)
    ensures var o := CouponFields(c, accrual, obs); forall k :: k in o && k != ObsKey ==> o[k].Num?
  {
  }

  /** A coupon writes its accrual dates only when they are set and are not its observation window, its FX reset only
      when it has one, and its FX fixing time only when that is set. */
  lemma CouponWrites(c: FloatCoupon)
    ensures var o := CouponTo(c).fields;
            var window := |c.obs.subStart| > 0 && |c.obs.subEnd| > 0 && c.accrualStart == c.obs.subStart[0]
                          && c.accrualEnd == c.obs.subEnd[|c.obs.subEnd| - 1];
            && (forall k :: k in o <==>
                  || k in {ObsKey, Pay, TauPay, SpreadKey, Scale, ResetTime}
                  || (k in {AccrualStart, AccrualEnd} && c.accrualSet && !window)
                  || (k == ResetFx && c.resetFx >= 0.0) || (k == FxFixingTime && c.fxFixingSet))
            && forall k :: k in o && k != ObsKey ==> o[k].Num?
  {
    CouponKeys(c, WritesAccrual(c), ObsTo(c.obs));
    CouponNumbers(c, WritesAccrual(c), ObsTo(c.obs));
  }

  /** A leg writes its FX spot time only when it is not zero. */
  lemma LegWrites(l: FloatLeg)
    ensures var o := LegTo(l).fields;
            && (forall k :: k in o <==>
                  || k in {Coupons, Forecast, Discount, ResetNum, ResetDen, FxSpot}
                  || (k == FxSpotTime && l.fxSpotTime != 0.0))
            && AllNums(o, o.Keys * {FxSpot, FxSpotTime})
            && (forall k :: k in {Forecast, Discount, ResetNum, ResetDen} ==> o[k].Int?)
  {
  }

  /** A region writes its tension only on a Tension region, and its smoothing weight only when it is set. */
  lemma RegionWrites(m: CurveModule)
    ensures var o := RegionTo(m).fields;
            && (forall k :: k in o <==>
                  k in {SchemeKey, KnotsKey} || (k == Sigma && m.scheme == Tension)
                  || (k == RegLambda && m.regLambda >= 0.0))
            && AllNums(o, o.Keys * {Sigma, RegLambda})
  {
  }

  /** A curve is always written as regions; its index tenor only when positive, its turns only when it has some. */
  lemma CurveWrites(s: CurveSpec)
    ensures var o := CurveTo(s).fields;
            && (forall k :: k in o <==>
                  k in {Base, Currency, Regions} || (k == FixingTenor && s.fixingTenor > 0.0)
                  || (k == TurnsKey && s.turns != []))
            && o[Base].Int? && o[Currency].Int? && AllNums(o, o.Keys * {FixingTenor})
  {
  }

  lemma NumbersKeys(x: Instrument)
    ensures forall k :: k in Numbers(x) <==>
      || k in {Forecast, Convexity, Market, PvCurrency, FxNum, FxDen, FxSpot, FxTime, BandLower, BandUpper, BandDecay,
               TurnCurve, TurnIndex}
      || (k == FxSpotTime && x.fxSpotTime != 0.0)
  {
  }

  lemma PartsKeys(o: Fields, x: Instrument, p: Parts)
    ensures forall k :: k in WithParts(o, x, p) <==> k in o || k in {QuoteKey, Fwd, Bench, Fixed, Mtm, ObsKey}
  {
  }

  lemma OptionalKeys(o: Fields, x: Instrument, p: Parts)
    ensures forall k :: k in OptionalFields(o, x, p) <==>
      || k in o || (k == Penalty && x.penalty.Some?) || (k == StateKey && x.state != [])
      || (k == Combination && x.combination != [])
  {
  }

  /** An instrument writes its FX spot time, penalty map, state references and components only when it has them. */
  lemma InstrumentWrites(x: Instrument)
    ensures var o := InstrumentTo(x).fields;
            forall k :: k in o <==>
              || k in {QuoteKey, Fwd, Bench, Fixed, Mtm, ObsKey, Forecast, Convexity, Market, PvCurrency, FxNum, FxDen,
                       FxSpot, FxTime, BandLower, BandUpper, BandDecay, TurnCurve, TurnIndex}
              || (k == FxSpotTime && x.fxSpotTime != 0.0) || (k == Penalty && x.penalty.Some?)
              || (k == StateKey && x.state != []) || (k == Combination && x.combination != [])
  {
    var p := PartsOf(x);
    NumbersKeys(x);
    PartsKeys(Numbers(x), x, p);
    OptionalKeys(WithParts(Numbers(x), x, p), x, p);
  }

  /** A bundle writes its constraints and its currency codes only when it has some. */
  lemma BundleWrites(b: Bundle)
    ensures var o := BundleTo(b).fields;
            forall k :: k in o <==>
              k in {CurvesKey, Instruments} || (k == Constraints && b.constraints != [])
              || (k == CurrencyCodes && b.codes != [])
  {
  }
}
