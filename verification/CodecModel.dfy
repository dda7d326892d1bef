/** JSON documents as values, the readers that assign only what is present, and the structs a bundle is made of
    (api/codec.cpp; struct defaults from the calibration and pricing headers). */
module CodecModel {
  import opened Curves
  import opened Wrappers

  // ---- documents ----

  /** The field names a bundle document uses. */
  datatype Key =
    | SubStart | SubEnd | Weight | Realized | TauIndex | FixingStep | FixingStep3 | Compounded | RealizedFactor
    | FixingIndex | FixingSchedule | FixingDate | Accrual | TStart | TEnd
    | ObsKey | Pay | TauPay | SpreadKey | Scale | ResetTime | AccrualStart | AccrualEnd | ResetFx | FxFixingTime | Tau
    | Coupons | Forecast | Discount | ResetNum | ResetDen | FxSpot | FxSpotTime
    | QuoteKey | Fwd | Bench | Fixed | Mtm | Convexity | Market | PvCurrency | FxNum | FxDen | FxTime
    | BandLower | BandUpper | BandDecay | Penalty | Breaks | Slopes | TurnCurve | TurnIndex
    | StateKey | CurveKey | IndexKey | Coeff | Combination | InstrumentKey
    | SchemeKey | KnotsKey | Sigma | RegLambda | RegSigma | Base | Currency | FixingTenor | Regions | Meeting | Back
    | TurnsKey | StartKey | EndKey | CurvesKey | Instruments | Constraints | CurrencyCodes

  type Fields = map<Key, Json>

  datatype Json =
    | Null | Bool(b: bool) | Int(i: int) | Num(x: real) | Text(s: string) | Arr(items: seq<Json>) | Obj(fields: Fields)

  /** What a reader gives: a value, or an exception. */
  datatype Read<+T> = Got(value: T) | Thrown {
    predicate IsFailure() {
      Thrown?
    }

    function PropagateFailure<U>(): Read<U>
      requires IsFailure()
    {
      Thrown
    }

    function Extract(): T
      requires !IsFailure()
    {
      value
    }
  }

  // ---- scalar readers ----

  function AsReal(j: Json): Read<real> {
    match j
    case Num(x) => Got(x)
    case Int(i) => Got(i as real)
    case _ => Thrown
  }

  /** A whole number; a fractional one is refused. */
  function AsInt(j: Json): Read<int> {
    match j
    case Int(i) => Got(i)
    case Num(x) => if x == x.Floor as real then Got(x.Floor) else Thrown
    case _ => Thrown
  }

  function AsBool(j: Json): Read<bool> {
    if j.Bool? then Got(j.b) else Thrown
  }

  function AsText(j: Json): Read<string> {
    if j.Text? then Got(j.s) else Thrown
  }

  function AsObj(j: Json): Read<Fields> {
    if j.Obj? then Got(j.fields) else Thrown
  }

  /** `into`: the field when it is present and not null, otherwise the struct's own default. */
  predicate Present(o: Fields, k: Key) {
    k in o && !o[k].Null?
  }

  function RealAt(o: Fields, k: Key, default: real): Read<real> {
    if Present(o, k) then AsReal(o[k]) else Got(default)
  }

  function IntAt(o: Fields, k: Key, default: int): Read<int> {
    if Present(o, k) then AsInt(o[k]) else Got(default)
  }

  function BoolAt(o: Fields, k: Key, default: bool): Read<bool> {
    if Present(o, k) then AsBool(o[k]) else Got(default)
  }

  function TextAt(o: Fields, k: Key, default: string): Read<string> {
    if Present(o, k) then AsText(o[k]) else Got(default)
  }

  function RealsAt(o: Fields, k: Key): Read<seq<real>> {
    if Present(o, k) then AllReals(o[k]) else Got([])
  }

  function Mapped<T, U>(xs: seq<T>, f: T -> U): (r: seq<U>)
    ensures |r| == |xs| && forall i :: 0 <= i < |r| ==> r[i] == f(xs[i])
  {
    seq(|xs|, i requires 0 <= i < |xs| => f(xs[i]))
  }

  function ReadAll<T>(js: seq<Json>, read: Json -> Read<T>): Read<seq<T>> {
    if js == [] then Got([]) else
      var first :- read(js[0]);
      var rest :- ReadAll(js[1..], read);
      Got([first] + rest)
  }

  /** An array field read whenever it is there: an explicit null is refused. */
  function ListAt<T>(o: Fields, k: Key, read: Json -> Read<T>): Read<seq<T>> {
    if k !in o then Got([]) else if o[k].Arr? then ReadAll(o[k].items, read) else Thrown
  }

  function AllReals(j: Json): Read<seq<real>> {
    if j.Arr? then ReadAll(j.items, AsReal) else Thrown
  }

  function Reals(xs: seq<real>): Json {
    Arr(Mapped(xs, (x: real) => Num(x)))
  }

  /** Reading back a written list reads back every entry. */
  lemma {:induction false} ReadsAll<T, U>(xs: seq<T>, write: T -> Json, read: Json -> Read<U>, back: T -> U)
    requires forall i :: 0 <= i < |xs| ==> read(write(xs[i])) == Got(back(xs[i]))
    ensures ReadAll(Mapped(xs, write), read) == Got(Mapped(xs, back))
  {
    if xs == [] {
      assert Mapped(xs, write) == [];
    } else {
      var rest := xs[1..];
      assert forall i :: 0 <= i < |rest| ==> rest[i] == xs[i + 1];
      ReadsAll(rest, write, read, back);
      assert Mapped(xs, write)[1..] == Mapped(rest, write);
      assert Mapped(xs, back) == [back(xs[0])] + Mapped(rest, back);
    }
  }

  lemma ReadsReals(xs: seq<real>)
    ensures AllReals(Reals(xs)) == Got(xs)
  {
    ReadsAll(xs, (x: real) => Num(x), AsReal, (x: real) => x);
    assert Mapped(xs, (x: real) => x) == xs;
  }

  // ---- the structs ----

  datatype FixingDay = FixingDay(date: int, accrual: real, start: real, end: real, weight: real)

  /** A rate observation; `resolved` is set by the pricing layer and never travels. */
  datatype Observation = Observation(subStart: seq<real>, subEnd: seq<real>, weight: seq<real>, realized: real,
                                     tauIndex: real,
                                     fixingStep: real, fixingStep3: real, compounded: bool, realizedFactor: real,
                                     fixingIndex: string, schedule: seq<FixingDay>, resolved: bool)

  datatype FloatCoupon = FloatCoupon(obs: Observation, pay: real, tauPay: real, spread: real, scale: real,
                                     resetTime: real,
                                     accrualSet: bool, accrualStart: real, accrualEnd: real, resetFx: real,
                                     fxFixingSet: bool, fxFixingTime: real)

  datatype FixedCoupon = FixedCoupon(pay: real, tau: real, scale: real)

  datatype FloatLeg = FloatLeg(coupons: seq<FloatCoupon>, forecast: int, discount: int, resetNum: int, resetDen: int,
                               fxSpot: real, fxSpotTime: real)

  datatype FixedLeg = FixedLeg(coupons: seq<FixedCoupon>, discount: int)

  datatype QuoteKind =
    | ParRate | ParSpread | Rate | FxForward | XccyMtmBasis | Portfolio | TurnJump | ZeroCouponRate | Npv | StateLinear

  const MAX_BREAKS := 3

  /** The pieces in use of a penalty map: up to three breakpoints, one more slope. */
  datatype RawPenalty = RawPenalty(breaks: seq<real>, slopes: seq<real>)
  type PenaltyMap = p: RawPenalty | |p.breaks| <= MAX_BREAKS && |p.slopes| == |p.breaks| + 1
    witness RawPenalty([], [1.0])

  datatype StateRef = StateRef(curve: int, index: int, coeff: real)

  datatype Weighted = Weighted(weight: real, instrument: Instrument)

  datatype Instrument = Instrument(
    quote: QuoteKind, fwd: FloatLeg, bench: FloatLeg, fixed: FixedLeg, mtm: FloatLeg, obs: Observation,
    forecast: int, convexity: real, market: real, pvCurrency: int, fxNum: int, fxDen: int, fxSpot: real, fxTime: real,
    fxSpotTime: real, lower: real, upper: real, decay: real, penalty: Option<PenaltyMap>, turnCurve: int,
      turnIndex: int,
    state: seq<StateRef>, combination: seq<Weighted>)

  datatype Turn = Turn(start: real, end: real)

  datatype CurveSpec = CurveSpec(base: int, currency: int, fixingTenor: real, regions: seq<CurveModule>,
                                 turns: seq<Turn>)

  datatype Bundle = Bundle(curves: seq<CurveSpec>, instruments: seq<Instrument>, constraints: seq<Instrument>,
                           codes: seq<string>)

  const NO_OBSERVATION := Observation([], [], [], 0.0, 0.0, 0.0, 0.0, false, 1.0, "", [], false)
  const NO_FLOAT_LEG := FloatLeg([], 0, 0, -1, -1, 1.0, 0.0)
  const NO_FIXED_LEG := FixedLeg([], 0)

  // ---- the quote-kind table ----

  function QuoteToStr(q: QuoteKind): string {
    match q
    case ParRate => "ParRate"
    case ParSpread => "ParSpread"
    case Rate => "Rate"
    case FxForward => "FxForward"
    case XccyMtmBasis => "XccyMtmBasis"
    case Portfolio => "Portfolio"
    case TurnJump => "TurnJump"
    case ZeroCouponRate => "ZeroCouponRate"
    case Npv => "Npv"
    case StateLinear => "StateLinear"
  }

  function QuoteFromStr(s: string): Read<QuoteKind> {
    if s == "ParSpread" then Got(ParSpread)
    else if s == "Rate" then Got(Rate)
    else if s == "FxForward" then Got(FxForward)
    else if s == "XccyMtmBasis" then Got(XccyMtmBasis)
    else if s == "Portfolio" then Got(Portfolio)
    else if s == "TurnJump" then Got(TurnJump)
    else if s == "ZeroCouponRate" then Got(ZeroCouponRate)
    else if s == "Npv" then Got(Npv)
    else if s == "StateLinear" then Got(StateLinear)
    else if s == "ParRate" then Got(ParRate)
    else Thrown
  }

  lemma QuoteSpelled(q: QuoteKind)
    ensures QuoteFromStr(QuoteToStr(q)) == Got(q)
  {
    var s := QuoteToStr(q);
    assert |s| == match q case ParRate => 7 case ParSpread => 9 case Rate => 4 case FxForward => 9
                  case XccyMtmBasis => 12 case Portfolio => 9 case TurnJump => 8 case ZeroCouponRate => 14
                  case Npv => 3 case StateLinear => 11;
    assert |s| == 9 ==> s[1] == match q case ParSpread => 'a' case FxForward => 'x' case _ => 'o';
  }
}
