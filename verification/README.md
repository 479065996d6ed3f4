# AI fitness coach: repetition counter and form feedback

This project models the original logic of the AI fitness coach's video
processor (`FitnessCoachProcessor` in `app.py`). A session tracks one selected
exercise, either push-ups or half-squats. Each exercise has its own two-phase
repetition machine, and the session keeps the latest form-feedback message.
Each video frame supplies three joint angles: elbow, hip and knee. A frame may
also supply nothing when no person was detected.

Each frame advances the selected exercise's machine. For push-ups the machine
reads the elbow angle, going down below 90 degrees and back up above 160. For
half-squats it reads the knee angle, going down below 150 and back up above 170.
Each down-to-up transition counts one repetition. After the transition, if the
machine is down, the first matching form rule supplies a message and that
message replaces the stored feedback.

Selecting a different exercise zeroes both counters and announces the new
exercise. Selecting the current exercise again changes nothing. The display
reads the selected exercise's repetition count and the feedback.

Modules:

- `Exercises` (exercises.dfy) models the selected exercise. The processor stores
  the selection as any string, so `Exercise` is `PushUps | HalfSquats |
  Other(name)`. `Name` and `Kind` translate between the exercise and the stored
  string in both directions.
- `RepCounter` (rep_counter.dfy) is the two-phase hysteresis machine, with the
  threshold pair of each exercise as a `Band`. It also holds lemmas about runs
  of readings: hysteresis, the counter equal to the number of completed cycles,
  at most one repetition per two readings, and a repetition needing a full
  swing.
- `Feedback` (feedback.dfy) states the form rules as ordered lists of
  condition and message, checked first match wins. The cascaded conditionals
  the processor evaluates are proved to pick the same message as these lists.
- `Coach` (coach.dfy) is the session. It holds the initial state,
  `SetExercise`, `DisplayStats`, the per-frame `Step` and its fold `Feed` over
  frames, and the lemmas that connect the session to the machine.

A note on behaviour: selecting a new exercise resets both counters but neither
phase. A push-up left half done stays down through a switch to half-squats and
back. The first straight-arm frame after that counts a repetition, even though
no frame went down since the switch. `Coach.PhaseSurvivesSwitchBack` states this.
The code does not make clear whether this is intended, so the model keeps it
as written.

## Model

| member | source | states |
|---|---|---|
| `Exercises.Kind` | app.py:57-65 | every selection string names exactly one exercise: "Push-ups" and "Half-Squats" are the recognised ones, any other string is kept as an unrecognised exercise, and the stored name reads back as the same string |
| `Exercises.NameInjective` | app.py:60 | comparing the stored exercise names, as the selector does, is the same as comparing exercises |
| `RepCounter.Advance` | app.py:119-123 | one reading flips the phase exactly when it is below the lower threshold while up or above the upper threshold while down, and the counter rises by one exactly on a down-to-up flip |
| `RepCounter.HoldsInBand` | app.py:134-138 | a reading between the two thresholds, inclusive, leaves phase and counter unchanged |
| `RepCounter.Run` | app.py:119-123 | over any run of readings the counter never decreases |
| `RepCounter.RunHoldsInBand` | app.py:119-123 | any number of readings oscillating inside the band leave the machine unchanged |
| `RepCounter.CountIsCompletions` | app.py:134-138 | after any run of readings the counter equals its start value plus the number of down-to-up transitions in the run's trace of phases |
| `RepCounter.AtMostOneRepPerTwoReadings` | app.py:119-123 | twice the repetitions counted over a run is at most the number of readings, plus one when the run starts down |
| `RepCounter.RiseNeedsExitReading` | app.py:121-123 | starting down, a run counts a repetition only if some reading is above the upper threshold |
| `RepCounter.RepNeedsFullSwing` | app.py:119-123 | starting up, a run counts a repetition only if a reading below the lower threshold is later followed by one above the upper threshold |
| `Feedback.FirstMatch` | app.py:141-147 | the chosen rule applies to the angles and no earlier rule does; when none applies, no rule does |
| `Feedback.SkipsRuleThatFails` | app.py:144 | a rule that does not apply is passed over and evaluation continues with the later rules |
| `Feedback.PushUpMessage` | app.py:126-130 | the push-up check gives the message of the first push-up rule that applies (hip below 160 degrees, then good form) and is never empty |
| `Feedback.HalfSquatMessage` | app.py:141-147 | the half-squat check gives the message of the first half-squat rule that applies (knee below 100, then hip below 160, then good form) and is never empty |
| `Feedback.HalfSquatPrecedence` | app.py:142-147 | a knee below 100 degrees gives "Going too deep!" even when the hip is below 160; otherwise a hip below 160 gives "Keep your chest up!"; the sample readings knee 95/hip 140, knee 120/hip 140 and knee 120/hip 170 give "Going too deep!", "Keep your chest up!" and "Good Form" |
| `Coach.Init` | app.py:44-55 | a new session tracks push-ups, both machines up with zero repetitions, and displays zero repetitions with "Start your exercise!" |
| `Coach.SetExercise` | app.py:57-65 | the selection becomes the named exercise; reselecting the current one changes nothing; selecting another zeroes both counters and sets "Starting <name>..."; phases are never changed |
| `Coach.DisplayStats` | app.py:67-79 | the repetitions shown are the push-up counter for push-ups, the half-squat counter for half-squats and zero otherwise, with the stored feedback |
| `Coach.Step` | app.py:113-156 | a frame advances only the selected exercise's machine, by its diagnostic angle; the feedback becomes the first matching rule's message exactly when that machine is down after the transition and is kept otherwise; no landmarks or an unrecognised exercise change nothing |
| `Coach.Feed` | app.py:113-156 | processing frames one after another, as successive calls of the frame handler do, never changes which exercise is selected |
| `Coach.FeedIgnoresUnrecognised` | app.py:117-152 | on an unrecognised exercise any sequence of frames leaves the session unchanged |
| `Coach.FeedDrivesActiveMachine` | app.py:113-156 | over any frames the selected machine evolves exactly as a lone counter fed the diagnostic angles of the frames with landmarks; the exercise and the other machine are untouched |
| `Coach.RepsCountCompletedCycles` | app.py:113-156 | the displayed repetitions after any frames equal those before plus the number of completed down-to-up cycles |
| `Coach.RepsNeverDecrease` | app.py:113-156 | between exercise switches the displayed repetitions never go down |
| `Coach.InBandFrameKeepsCount` | app.py:119-130 | a frame whose diagnostic angle is inside the band changes at most the feedback, and nothing at all while the exercise is up |
| `Coach.FeedbackFollowsNewPhase` | app.py:117-152 | the frame that completes a repetition keeps the old feedback and adds one repetition; the frame that goes down already shows its form message |
| `Coach.SetExerciseIdempotent` | app.py:59-65 | selecting the same name twice equals selecting it once |
| `Coach.SwitchShowsFreshStats` | app.py:60-79 | after switching to another exercise the display shows zero repetitions and "Starting <name>...", whatever the counters held |
| `Coach.PhaseSurvivesSwitchBack` | app.py:57-65 | a push-up left down survives switching to half-squats and back, and the next straight-arm frame counts a repetition |
| `Coach.OnePushUpExample` | app.py:119-123 | from a new session, elbow angles 170, 80 and 170 leave the push-up machine up with one repetition |

## Left out

- Angle calculation (app.py:23-35): the `atan2` floating-point trigonometry is not modelled. The three angles are abstract real inputs. Coincident landmarks give `atan2(0, 0) = 0` and so a finite but meaningless angle, which an arbitrary real input already covers. Only NaN landmark coordinates, which give NaN angles that a real cannot represent, fall outside the model.
- Pose detection and landmark extraction (app.py:18-20, 83-111): a call into a foreign library. The model sees only whether a frame has landmarks (`Frame.Landmarks`) or not (`Frame.NoLandmarks`). Missing landmarks are the only exception path of app.py:154-156 that the model covers.
- Frame conversion, landmark drawing and the overlay boxes (app.py:86-90, 158-183) are pixel I/O and rendering.
- The Streamlit page, the WebRTC streamer and the polling loop with its sleep (app.py:9-15, 185-234) are UI and network code.
- The lock (app.py:41, 59, 69, 114, 151) is left out. Each operation is modelled as one atomic step. The processor reads the exercise under the lock but then updates phase and counter without it, and that interleaving with a concurrent `set_exercise` is not modelled.
