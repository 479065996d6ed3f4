/**
 Form feedback. While an exercise is in its down phase, the joint angles of
 the frame are checked against an ordered list of rules and the first rule
 that applies supplies the message. The rule lists are the reference; the
 cascaded conditionals the processor actually evaluates are proved to pick
 the same message.
 */
module Feedback {

  /** The three joint angles of one frame, in degrees: elbow
      (shoulder-elbow-wrist), hip (shoulder-hip-knee) and knee
      (hip-knee-ankle). */
  datatype Angles = Angles(elbow: real, hip: real, knee: real)

  const GoodForm: string := "Good Form"
  const BackStraight: string := "Keep your back straight!"
  const TooDeep: string := "Going too deep!"
  const ChestUp: string := "Keep your chest up!"

  datatype Condition = HipBelow(limit: real) | KneeBelow(limit: real) | Always

  predicate Holds(c: Condition, a: Angles)
  {
    match c
    case HipBelow(limit) => a.hip < limit
    case KneeBelow(limit) => a.knee < limit
    case Always => true
  }

  datatype Rule = Rule(cond: Condition, message: string)

  /** Push-ups while down: a sagging hip first, otherwise good form. */
  const PushUpRules: seq<Rule> := [
    Rule(HipBelow(160.0), BackStraight),
    Rule(Always, GoodForm)
  ]

  /** Half-squats while down: too deep first, then a leaning chest,
      otherwise good form. */
  const HalfSquatRules: seq<Rule> := [
    Rule(KneeBelow(100.0), TooDeep),
    Rule(HipBelow(160.0), ChestUp),
    Rule(Always, GoodForm)
  ]

  /** The position of the first rule that applies, or |rules| when none does. */
  function FirstMatch(rules: seq<Rule>, a: Angles): (i: nat)
    ensures i <= |rules|
    ensures i < |rules| ==> Holds(rules[i].cond, a)
    ensures forall j :: 0 <= j < i ==> !Holds(rules[j].cond, a)
    decreases |rules|
  {
    if |rules| == 0 then 0
    else if Holds(rules[0].cond, a) then 0
    else 1 + FirstMatch(rules[1..], a)
  }

  /** The message of the first rule that applies; empty when none does. */
  function Evaluate(rules: seq<Rule>, a: Angles): string
  {
    var i := FirstMatch(rules, a);
    if i < |rules| then rules[i].message else ""
  }

  /** A rule that does not apply is passed over: evaluation continues with
      the rules after it. */
  lemma SkipsRuleThatFails(rules: seq<Rule>, a: Angles)
    requires |rules| > 0 && !Holds(rules[0].cond, a)
    ensures Evaluate(rules, a) == Evaluate(rules[1..], a)
  {
  }

  /** The push-up check the processor runs while down (app.py:126-130). */
  function PushUpMessage(a: Angles): (msg: string)
    ensures msg == Evaluate(PushUpRules, a)
    ensures msg != ""
  {
    if a.hip < 160.0 then BackStraight
    else
      SkipsRuleThatFails(PushUpRules, a);
      GoodForm
  }

  /** The half-squat check the processor runs while down (app.py:141-147). */
  function HalfSquatMessage(a: Angles): (msg: string)
    ensures msg == Evaluate(HalfSquatRules, a)
    ensures msg != ""
  {
    if a.knee < 100.0 then TooDeep
    else
      SkipsRuleThatFails(HalfSquatRules, a);
      if a.hip < 160.0 then ChestUp
      else
        SkipsRuleThatFails(HalfSquatRules[1..], a);
        GoodForm
  }

  /** Too deep wins over a leaning chest. Three sample readings: knee 95
      with hip 140 is too deep, knee 120 with hip 140 leans the chest, and
      knee 120 with hip 170 is good form. */
  lemma HalfSquatPrecedence(a: Angles)
    ensures a.knee < 100.0 ==> HalfSquatMessage(a) == TooDeep
    ensures a.knee >= 100.0 && a.hip < 160.0 ==> HalfSquatMessage(a) == ChestUp
    ensures HalfSquatMessage(Angles(0.0, 140.0, 95.0)) == TooDeep
    ensures HalfSquatMessage(Angles(0.0, 140.0, 120.0)) == ChestUp
    ensures HalfSquatMessage(Angles(0.0, 170.0, 120.0)) == GoodForm
  {
  }
}
