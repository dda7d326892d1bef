/** Interpolation schemes, their one name table, and the pieces a curve is laid out in. */
module Curves {
  import opened Wrappers

  datatype Scheme = Flat | Linear | NaturalCubic | Hermite | MonotoneCubic | BSpline | Tension | MonotoneConvex

  function SchemeToStr(s: Scheme): string {
    match s
    case Flat => "Flat"
    case Linear => "Linear"
    case NaturalCubic => "NaturalCubic"
    case Hermite => "Hermite"
    case MonotoneCubic => "MonotoneCubic"
    case BSpline => "BSpline"
    case Tension => "Tension"
    case MonotoneConvex => "MonotoneConvex"
  }

  function SchemeFromStr(s: string): Option<Scheme> {
    if s == "Flat" then Some(Flat)
    else if s == "Linear" then Some(Linear)
    else if s == "NaturalCubic" then Some(NaturalCubic)
    else if s == "Hermite" then Some(Hermite)
    else if s == "MonotoneCubic" then Some(MonotoneCubic)
    else if s == "BSpline" then Some(BSpline)
    else if s == "Tension" then Some(Tension)
    else if s == "MonotoneConvex" then Some(MonotoneConvex)
    else None
  }

  lemma Spelled(s: Scheme)
    ensures SchemeFromStr(SchemeToStr(s)) == Some(s)
  {
    var name := SchemeToStr(s);
    assert |name| == match s case Flat => 4 case Linear => 6 case NaturalCubic => 12 case Hermite => 7
                       case MonotoneCubic => 13 case BSpline => 7 case Tension => 7 case MonotoneConvex => 14;
    assert |name| == 7 ==> name[0] == match s case Hermite => 'H' case BSpline => 'B' case _ => 'T';
  }

  const UNSET_LAMBDA := -1.0

  /** One building block of a curve (CurveModule). */
  datatype CurveModule = CurveModule(knots: seq<real>, scheme: Scheme, sigma: real, regLambda: real)

  /** The shipped two-piece layout, an empty piece left out. */
  function FlatHermite(front: seq<real>, back: seq<real>): seq<CurveModule> {
    (if front == [] then [] else [CurveModule(front, Flat, 0.0, UNSET_LAMBDA)]) +
    (if back == [] then [] else [CurveModule(back, Hermite, 0.0, UNSET_LAMBDA)])
  }
}
