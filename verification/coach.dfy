/**
 The coaching session: the selected exercise, one repetition machine per
 recognised exercise, and the latest feedback message. Frames arrive one at
 a time carrying the three joint angles, or nothing when no person was
 detected; the user may switch exercise between frames; the display reads
 the repetitions of the selected exercise and the feedback.
 */
module Coach {
  import opened Exercises
  import opened RepCounter
  import opened Feedback

  const StartMessage: string := "Start your exercise!"

  datatype Session = Session(exercise: Exercise, pushups: Machine, squats: Machine, feedback: string)

  /** What one video frame yields for the counter. */
  datatype Frame = NoLandmarks | Landmarks(angles: Angles)

  /** What the display shows. */
  datatype Stats = Stats(reps: nat, feedback: string)

  /** The session the processor starts with (app.py:44-55). */
  function Init(): (s: Session)
    ensures s.exercise == PushUps
    ensures s.pushups == Fresh && s.squats == Fresh
    ensures DisplayStats(s) == Stats(0, StartMessage)
  {
    Session(PushUps, Fresh, Fresh, StartMessage)
  }

  /** The message shown after switching to the exercise called `name`. */
  function Starting(name: string): string
  {
    "Starting " + name + "..."
  }

  /** Selects an exercise by name. Selecting the current one changes
      nothing; selecting another zeroes both counters, whichever exercise
      they belong to, and announces it, but leaves both phases alone. */
  function SetExercise(s: Session, name: string): (r: Session)
    ensures r.exercise == Kind(name)
    ensures r.pushups.phase == s.pushups.phase && r.squats.phase == s.squats.phase
    ensures Kind(name) == s.exercise ==> r == s
    ensures Kind(name) != s.exercise ==>
              r.pushups.count == 0 && r.squats.count == 0 && r.feedback == Starting(name)
  {
    KindOfName(s.exercise);
    if Name(s.exercise) != name then
      Session(Kind(name), s.pushups.(count := 0), s.squats.(count := 0), Starting(name))
    else
      s
  }

  /** The repetitions of the selected exercise, zero for an unrecognised
      one, together with the latest feedback. */
  function DisplayStats(s: Session): (st: Stats)
    ensures s.exercise == PushUps ==> st.reps == s.pushups.count
    ensures s.exercise == HalfSquats ==> st.reps == s.squats.count
    ensures s.exercise.Other? ==> st.reps == 0
    ensures st.feedback == s.feedback
  {
    match s.exercise
    case PushUps => Stats(s.pushups.count, s.feedback)
    case HalfSquats => Stats(s.squats.count, s.feedback)
    case Other(_) => Stats(0, s.feedback)
  }

  predicate Recognised(e: Exercise)
  {
    !e.Other?
  }

  /** The machine of the selected exercise. */
  function Active(s: Session): Machine
    requires Recognised(s.exercise)
  {
    if s.exercise == PushUps then s.pushups else s.squats
  }

  /** The joint whose angle drives the counter of an exercise. */
  function Diagnostic(e: Exercise, a: Angles): real
    requires Recognised(e)
  {
    if e == PushUps then a.elbow else a.knee
  }

  function BandOf(e: Exercise): Band
    requires Recognised(e)
  {
    if e == PushUps then PushUpBand else HalfSquatBand
  }

  function RulesOf(e: Exercise): seq<Rule>
    requires Recognised(e)
  {
    if e == PushUps then PushUpRules else HalfSquatRules
  }

  /** Processes one frame (app.py:113-156). The selected exercise's machine
      takes the frame's diagnostic angle first; then, if that machine is now
      down, the frame's form message replaces the stored feedback. Nothing
      else changes, and a frame without landmarks or a session on an
      unrecognised exercise changes nothing at all. */
  function Step(s: Session, frame: Frame): (r: Session)
    ensures frame.NoLandmarks? || !Recognised(s.exercise) ==> r == s
    ensures r.exercise == s.exercise
    ensures s.exercise != PushUps ==> r.pushups == s.pushups
    ensures s.exercise != HalfSquats ==> r.squats == s.squats
    ensures frame.Landmarks? && Recognised(s.exercise) ==>
              Active(r) == Advance(Active(s), Diagnostic(s.exercise, frame.angles), BandOf(s.exercise))
    ensures frame.Landmarks? && Recognised(s.exercise) ==>
              r.feedback == (if Active(r).phase == Down
                             then Evaluate(RulesOf(s.exercise), frame.angles)
                             else s.feedback)
  {
    match frame
    case NoLandmarks => s
    case Landmarks(a) =>
      match s.exercise
      case PushUps =>
        var m := Advance(s.pushups, a.elbow, PushUpBand);
        var msg := if m.phase == Down then PushUpMessage(a) else "";
        s.(pushups := m, feedback := if msg != "" then msg else s.feedback)
      case HalfSquats =>
        var m := Advance(s.squats, a.knee, HalfSquatBand);
        var msg := if m.phase == Down then HalfSquatMessage(a) else "";
        s.(squats := m, feedback := if msg != "" then msg else s.feedback)
      case Other(_) => s
  }

  /** Processes a sequence of frames, first to last; frames never change
      which exercise is selected. */
  function Feed(s: Session, frames: seq<Frame>): (r: Session)
    ensures r.exercise == s.exercise
    decreases |frames|
  {
    if |frames| == 0 then s else Feed(Step(s, frames[0]), frames[1..])
  }

  /** The diagnostic angles of the frames that carried landmarks, in order. */
  function Readings(e: Exercise, frames: seq<Frame>): seq<real>
    requires Recognised(e)
    decreases |frames|
  {
    if |frames| == 0 then []
    else
      (match frames[0]
       case NoLandmarks => []
       case Landmarks(a) => [Diagnostic(e, a)])
      + Readings(e, frames[1..])
  }

  /** On an unrecognised exercise no frame has any effect. */
  lemma {:induction false} FeedIgnoresUnrecognised(s: Session, frames: seq<Frame>)
    requires !Recognised(s.exercise)
    ensures Feed(s, frames) == s
    decreases |frames|
  {
    if |frames| > 0 {
      FeedIgnoresUnrecognised(Step(s, frames[0]), frames[1..]);
    }
  }

  /** Over any frames, the selected exercise's machine behaves exactly like
      a lone counter fed the diagnostic angles of the frames that had
      landmarks, and the other exercise's machine is never touched. */
  lemma {:induction false} FeedDrivesActiveMachine(s: Session, frames: seq<Frame>)
    requires Recognised(s.exercise)
    ensures Feed(s, frames).exercise == s.exercise
    ensures Active(Feed(s, frames)) ==
              Run(Active(s), Readings(s.exercise, frames), BandOf(s.exercise))
    ensures s.exercise != PushUps ==> Feed(s, frames).pushups == s.pushups
    ensures s.exercise != HalfSquats ==> Feed(s, frames).squats == s.squats
    decreases |frames|
  {
    if |frames| > 0 {
      var e := s.exercise;
      var band := BandOf(e);
      var s' := Step(s, frames[0]);
      var rest := Readings(e, frames[1..]);
      FeedDrivesActiveMachine(s', frames[1..]);
      match frames[0]
      case NoLandmarks =>
        assert Readings(e, frames) == rest;
      case Landmarks(a) =>
        var x := Diagnostic(e, a);
        assert Readings(e, frames) == [x] + rest;
        assert ([x] + rest)[1..] == rest;
    }
  }

  /** The displayed repetitions after any frames are those before plus the
      number of down-to-up transitions the selected exercise went through. */
  lemma RepsCountCompletedCycles(s: Session, frames: seq<Frame>)
    requires Recognised(s.exercise)
    ensures DisplayStats(Feed(s, frames)).reps ==
              DisplayStats(s).reps
              + Completions(Trace(Active(s), Readings(s.exercise, frames), BandOf(s.exercise)))
  {
    FeedDrivesActiveMachine(s, frames);
    CountIsCompletions(Active(s), Readings(s.exercise, frames), BandOf(s.exercise));
  }

  /** Between exercise switches the displayed repetitions never go down. */
  lemma RepsNeverDecrease(s: Session, frames: seq<Frame>)
    ensures DisplayStats(Feed(s, frames)).reps >= DisplayStats(s).reps
  {
    if Recognised(s.exercise) {
      FeedDrivesActiveMachine(s, frames);
    } else {
      FeedIgnoresUnrecognised(s, frames);
    }
  }

  /** A frame whose diagnostic angle lies inside the hysteresis band leaves
      phase and counter alone; only the feedback can change, and only when
      the exercise is down. */
  lemma InBandFrameKeepsCount(s: Session, a: Angles)
    requires Recognised(s.exercise)
    requires InBand(Diagnostic(s.exercise, a), BandOf(s.exercise))
    ensures Step(s, Landmarks(a)) == s.(feedback := Step(s, Landmarks(a)).feedback)
    ensures Active(s).phase == Up ==> Step(s, Landmarks(a)) == s
  {
    HoldsInBand(Active(s), Diagnostic(s.exercise, a), BandOf(s.exercise));
  }

  /** Feedback is judged after the transition: the frame that completes a
      repetition produces no message and the old one stays, while the frame
      that goes down already produces one. */
  lemma FeedbackFollowsNewPhase(s: Session, a: Angles)
    requires Recognised(s.exercise)
    ensures Active(s).phase == Down && Diagnostic(s.exercise, a) > BandOf(s.exercise).exitUp ==>
              DisplayStats(Step(s, Landmarks(a))) == Stats(DisplayStats(s).reps + 1, s.feedback)
    ensures Active(s).phase == Up && Diagnostic(s.exercise, a) < BandOf(s.exercise).enterDown ==>
              DisplayStats(Step(s, Landmarks(a))) ==
                Stats(DisplayStats(s).reps, Evaluate(RulesOf(s.exercise), a))
  {
  }

  /** Selecting the same name twice is the same as selecting it once. */
  lemma SetExerciseIdempotent(s: Session, name: string)
    ensures SetExercise(SetExercise(s, name), name) == SetExercise(s, name)
  {
  }

  /** After a switch the display shows zero repetitions and the starting
      message of the new exercise, whatever the counters held before. */
  lemma SwitchShowsFreshStats(s: Session, name: string)
    requires Kind(name) != s.exercise
    ensures DisplayStats(SetExercise(s, name)) == Stats(0, Starting(name))
  {
  }

  /** Because a switch keeps the phases, a push-up left half done survives
      switching away and back: the first straight-arm frame afterwards
      counts a repetition without any frame going down. */
  lemma PhaseSurvivesSwitchBack(s: Session, a: Angles)
    requires s.exercise == PushUps && s.pushups.phase == Down
    requires a.elbow > PushUpBand.exitUp
    ensures DisplayStats(SetExercise(SetExercise(s, HalfSquatsName), PushUpsName)).reps == 0
    ensures DisplayStats(Step(SetExercise(SetExercise(s, HalfSquatsName), PushUpsName), Landmarks(a))).reps == 1
  {
  }

  /** From a new session, elbow angles of 170, 80 and 170 degrees complete
      one push-up and leave the push-up machine up. */
  lemma OnePushUpExample()
    ensures var frames := [Landmarks(Angles(170.0, 170.0, 170.0)),
                           Landmarks(Angles(80.0, 170.0, 170.0)),
                           Landmarks(Angles(170.0, 170.0, 170.0))];
            Feed(Init(), frames).pushups == Machine(Up, 1)
  {
  }
}
