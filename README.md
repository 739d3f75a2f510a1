# Breathing widget: the session state machine

This project models the core of a single-screen breathing-exercise widget in Dafny and proves properties of the model. It has three parts:

- **Pattern catalog** (`constants.dfy`, module `Constants`). `MODES` is a constant map from mode id to a `BreathingPattern` record: phase durations in whole seconds, a default length or a default cycle count, and display strings. `DURATIONS` is an exported list of preset session lengths (1, 2, 3, 5 and 10 minutes). Nothing reads it: the length slider offers every whole minute from 1 to 10 (src/components/SelectionView.jsx:79-85), recorded as `App.SliderValue`.
- **Exercise runner** (`exercise_view.dfy`, module `ExerciseView`; proofs in `timeline.dfy`, module `Timeline`). This is the phase/cycle/time state machine. It starts in `Ready` and moves to `Inhale` on the first animation frame. When a phase timer expires it moves to the next phase. It counts a cycle on each edge back to `Inhale`. It requests a stop by one of two rules: elapsed ≥ duration when there is no cycle limit, or cycles ≥ limit when there is one.
  - The browser's timers become three discrete events. `Begin` is the first frame. `Tick` is one elapsed second. `PhaseExpired` is the one-shot phase timeout, armed for the phase's duration.
  - The behaviour is written once as pure step functions on a `RunnerState` value (`Mount`, `AfterBegin`, `AfterTick`, `AfterExpiry`, `Second`, `Run`).
  - It is written again as the class `ExerciseView.Runner`. Its methods update the fields in place and are proved to perform exactly those steps.
  - `Timeline` proves a closed form for the state n seconds after the first frame. The one-cycle-per-traversal property, both stop rules and the worked scenarios follow from it.
- **Top-level controller** (`app.dfy`, module `App`). The class `App.Controller` holds the view (`Selection`/`Exercise`), the mode id, the selected length and the cycle count. It also holds the mounted runner. It has the start/stop handlers, the mode-change reset (`ResetForMode`) and the derivation of the runner's configuration (`SessionFor`).

How the model fixes a few points:

- **Whole seconds.** A phase of `d` seconds lasts `d` ticks. `Second` is one tick followed by the phase timeout, when that timeout is due at the same instant. So the 12th grounding cycle completes in the same second that the 120-second time rule fires.
- **A separate phase timer.** The display countdown `remaining` and the phase timer `timerLeft` are separate fields. In the source the countdown runs on its own one-second interval (src/components/ExerciseView.jsx:118-124). In the whole-second model one `Tick` drives both fields, so their equality in `Consistent` comes from that abstraction. The source's possible sub-second drift is not modelled.
- **The stop flag.** `stopRequested` records that a stop rule has called `onStop`. A stop from the STOP button is `App.Controller.HandleStop`, which unmounts the runner.
- **Well-formed patterns only.** The runner accepts only patterns with `inhale > 0` and `exhale > 0`. Every catalog entry meets this (`Constants.AllWellFormed`). For such patterns, `NextPhase` never enters a phase of duration 0, so the immediate skip at src/components/ExerciseView.jsx:47-49 never fires. The invariant records this: every non-`Ready` phase has a positive duration.
- **Setters only from the selection screen.** `SetMode`, `SetDuration` and `HandleStart` require the `Selection` view. The setters and the START button are reachable only from the selection screen, which is rendered only in that view (src/App.jsx:40-49).
- **Code over the source's own statements.** Where the code and its labels or comments disagree, the model follows the code.
  - `focus` has a 4-second hold after exhale in the record (cycle length 16). Its label "Focus (4-4-4s)" and the comment at src/constants.js:33-36 speak of three phases.
  - The runner is always given the selected length, even for the cycle-based `sleep` mode. The time rule simply does not apply when a cycle limit is present.
  - The comment at src/App.jsx:18-19 makes the reset conditional: the default applies only if the user has not set a length by hand. The effect at src/App.jsx:21-28 has no such condition, and every mode change overwrites a length picked on the slider (for example, `ResetForMode("calm", 600, 4)` gives `(300, 4)`). The model follows the code: `ResetForMode` does not depend on how the length was chosen.
  - The effect depends on `[currentModeId]`, so it runs only when the id changes (`App.Controller.SetMode`).
  - A default length counts only when it is truthy, so 0 would count as absent.

## Model

| member | source | states |
|---|---|---|
| Constants.Lookup | src/constants.js:1-54 | a catalog entry carries its own key as id, is well formed with a positive cycle length, has no default length exactly when it is `sleep`, and otherwise has a default length that is one of the presets in `DURATIONS` |
| Constants.IdsMatchKeys | src/constants.js:1-54 | every entry's `id` equals its key in `MODES` |
| Constants.AllWellFormed | src/constants.js:6-48 | every entry has inhale > 0 and exhale > 0; holds are never negative |
| Constants.OnlySleepCountsCycles | src/constants.js:41-50 | `sleep` is the only entry whose default length is `null`, and its default cycle count is 4 |
| Constants.DefaultsArePresets | src/constants.js:10-56 | every non-null default length (120, 300, 180) is in `DURATIONS` |
| Constants.DurationsAreWholeMinutes | src/constants.js:56 | `DURATIONS` is strictly increasing and every entry is a multiple of 60 between 60 and 600 |
| Constants.CycleLengths | src/constants.js:6-48 | cycle lengths are 10 (grounding, calm), 16 (focus) and 19 (sleep); grounding's 120 s default is exactly 12 cycles |
| ExerciseView.NextPhase | src/components/ExerciseView.jsx:91-98 | the next phase is never `Ready`, `Ready` leads only to `Inhale`, a hold without time is never entered, and for a well-formed pattern every entered phase has a positive duration (so the zero-duration skip never fires) |
| ExerciseView.NextPhaseSkipsEmptyHolds | src/components/ExerciseView.jsx:93-97 | the transition rule equals the phase order inhale → hold → exhale → holdEmpty → inhale with the zero-length holds left out |
| ExerciseView.CycleCountedOnReturnToInhale | src/components/ExerciseView.jsx:100-102 | a cycle is counted exactly on the edges that lead back to `Inhale` (exhale with no hold after it, or holdEmpty), never on `Ready`'s first move |
| ExerciseView.Instruction | src/components/ExerciseView.jsx:127-132 | Inhale reads "Inhale", Exhale reads "Exhale", both holds read "Hold", and `Ready` has no instruction |
| ExerciseView.Mount | src/components/ExerciseView.jsx:5-14 | the runner starts in `Ready` with elapsed 0 and no cycles, satisfies the runner invariant, and has a stop requested on mount only for a time-based session of length 0 |
| ExerciseView.AfterBegin | src/components/ExerciseView.jsx:17-25 | the first frame moves `Ready` to `Inhale` with the countdown at the inhale duration and changes no counter |
| ExerciseView.AfterTick | src/components/ExerciseView.jsx:28-124 | per second: elapsed grows by 1 except in `Ready`; the display countdown drops by 1 and stays at 0 once there; without a cycle limit a stop is requested exactly when elapsed ≥ duration; with a cycle limit the time rule changes nothing; the invariant is kept |
| ExerciseView.AfterExpiry | src/components/ExerciseView.jsx:38-124 | on timer expiry: the phase becomes `NextPhase`; cycles grow by exactly 1 when the new phase is `Inhale` and are unchanged otherwise; the countdown restarts at the new phase's (positive) duration; elapsed is unchanged; with a cycle limit a stop is newly requested exactly when the new count reaches the limit; the invariant is kept |
| ExerciseView.Second | src/components/ExerciseView.jsx:28-60 | one second keeps the invariant, never enters or leaves `Ready`, and never decreases elapsed or cycles |
| ExerciseView.Run | src/components/ExerciseView.jsx:28-60 | any number of seconds keeps the invariant, never returns to `Ready`, never decreases the counters and never withdraws a stop request |
| ExerciseView.Runner.constructor | src/components/ExerciseView.jsx:3-14 | mounting the view for a well-formed pattern gives the `Mount` state for that session |
| ExerciseView.Runner.Begin | src/components/ExerciseView.jsx:17-25 | the in-place first-frame update is exactly `AfterBegin` and keeps the invariant |
| ExerciseView.Runner.Tick | src/components/ExerciseView.jsx:28-124 | the in-place interval updates and time rule are exactly `AfterTick` and keep the invariant |
| ExerciseView.Runner.PhaseExpired | src/components/ExerciseView.jsx:38-124 | the in-place timeout handling (`handlePhaseComplete`, `handleCycleComplete`, display reset) is exactly `AfterExpiry` and keeps the invariant |
| Timeline.SessionTimeline | src/components/ExerciseView.jsx:28-114 | n seconds after the first frame: elapsed is n, completed cycles are n / L (L = cycle length), the phase is the one at offset n mod L of the cycle, and a stop is requested exactly when a stop rule holds |
| Timeline.FullTraversal | src/components/ExerciseView.jsx:100-114 | from the start of an inhale, one traversal lasts exactly L seconds, adds exactly 1 to the cycle count, and ends at the start of the next inhale, whichever holds the pattern has |
| Timeline.TimeRule | src/components/ExerciseView.jsx:83-88 | without a cycle limit, a stop is requested after n seconds exactly when n ≥ duration |
| Timeline.CycleRule | src/components/ExerciseView.jsx:106-114 | with a cycle limit, the length is ignored and a stop is requested exactly when at least one cycle and at least the limit have completed |
| Timeline.NothingBeforeFirstFrame | src/components/ExerciseView.jsx:28-39 | while in `Ready` no amount of time changes the state |
| Timeline.GroundingScenario | src/constants.js:2-13 | grounding over 120 s alternates inhale (4 s) and exhale (6 s), requests its stop first at second 120, and has completed exactly 12 cycles then |
| Timeline.SleepScenario | src/constants.js:41-53 | sleep limited to 4 cycles, whatever the selected length, runs inhale (4 s), hold (7 s), exhale (8 s) in every cycle and never enters the hold after exhale, requests its stop first at second 76, and is then at 4 cycles with a new inhale begun |
| App.ResetForMode | src/App.jsx:21-28 | on a mode change a time-based mode resets the length to its default (a preset in `DURATIONS`) and keeps the cycle count; `sleep` resets the cycle count to 4 and keeps the length |
| App.SessionFor | src/App.jsx:51-56 | the runner gets `MODES[id]` (well formed) and the selected length; it gets a cycle limit, equal to the cycle count, exactly for `sleep`, that is exactly for the mode without a default length, so exactly one stop rule is active |
| App.FreshChoiceRunsDefault | src/App.jsx:21-56 | starting right after a mode change runs that mode's default: its default length (a preset and a slider position), or 4 cycles for `sleep` |
| App.Controller.constructor | src/App.jsx:8-14 | the initial state is mode `grounding`, view `Selection`, length 120, cycle count 4, no runner |
| App.Controller.SetMode | src/App.jsx:21-28 | choosing a mode sets the id; the same id changes nothing else, a new id applies `ResetForMode` |
| App.PresetsAreSliderValues | src/components/SelectionView.jsx:79-85 | every preset in `DURATIONS` is a slider position, while the slider also offers lengths that are not presets (240 s) |
| App.Controller.SetDuration | src/App.jsx:44-45 | the slider sets only the selected length, which is always a whole number of minutes from 1 to 10 |
| App.Controller.HandleStart | src/App.jsx:30-32 | START shows the exercise screen with a freshly mounted runner for `Config()`, and mode, length and cycle count are unchanged |
| App.Controller.HandleStop | src/App.jsx:34-36 | stop returns to the selection screen and discards the runner, and mode, length and cycle count are unchanged |

## Left out

- Rendering, CSS classes, inline styles, the animation `transitionDuration` and the show-seconds toggle (src/components/ExerciseView.jsx:134-189): presentational, with no effect on the state machine.
- The selection screen (src/components/SelectionView.jsx), including its minutes label `Math.floor(duration / 60)`: a form bound to the controller's setters. Only the setters themselves are modelled (`SetMode`, `SetDuration`).
- Scheduler semantics: `requestAnimationFrame`, `setTimeout`/`setInterval`, the deferral `setTimeout(onStop, 0)` and the effect cleanups. They become the events `Begin`, `Tick`, `PhaseExpired` and the stop flag. Sub-second interleaving is not modelled. This includes the race between the elapsed interval, which is recreated on every phase change, and the phase timeout.
- ExerciseView.Runner.Tick: its precondition says that a phase timer which is due fires before the next second. This ordering is the scheduler's, not the code's.
- ExerciseView.Mount: `remainingPhaseTime` really holds `mode['ready']` (`undefined`) during the one frame spent in `Ready`. The model uses 0, the value the code's `mode[phase] || 0` gives. This value is never displayed, because the toggle starts hidden.
- The all-zero pattern: the runner requires `inhale > 0` and `exhale > 0`. A pattern with every phase at 0 would loop forever through the immediate skip, and the effect of other zero phases is not modelled.
- The number of `onStop` calls: the model records that a stop was requested, and the controller's `HandleStop` then unmounts the runner. Repeated calls of the idempotent `onStop` are not counted.
- The empty intervals at src/components/ExerciseView.jsx:64-80 do nothing; the one at line 68 is never cleared, a timer leak with no observable state.
- React hook mechanics (updater functions, dependency arrays, batching): only the resulting state changes are modelled.
