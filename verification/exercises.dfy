/**
 The exercise a coaching session is tracking. The processor stores the
 selection as a free-form string; two names are recognised and every other
 string is kept verbatim as an unrecognised exercise that nothing counts.
 */
module Exercises {

  const PushUpsName: string := "Push-ups"
  const HalfSquatsName: string := "Half-Squats"

  /** A name that is neither of the two recognised exercises. */
  type OtherName = n: string | n != PushUpsName && n != HalfSquatsName witness ""

  datatype Exercise = PushUps | HalfSquats | Other(name: OtherName)

  /** The string the processor stores for an exercise. */
  function Name(e: Exercise): string
  {
    match e
    case PushUps => PushUpsName
    case HalfSquats => HalfSquatsName
    case Other(n) => n
  }

  /** Reads a selection string; every string denotes exactly one exercise. */
  function Kind(name: string): (e: Exercise)
    ensures Name(e) == name
    ensures e == PushUps <==> name == PushUpsName
    ensures e == HalfSquats <==> name == HalfSquatsName
  {
    if name == PushUpsName then PushUps
    else if name == HalfSquatsName then HalfSquats
    else Other(name)
  }

  /** Reading back the stored name gives the same exercise. */
  lemma KindOfName(e: Exercise)
    ensures Kind(Name(e)) == e
  {
  }

  /** Comparing stored names is the same as comparing exercises. */
  lemma NameInjective(a: Exercise, b: Exercise)
    ensures Name(a) == Name(b) <==> a == b
  {
  }
}
