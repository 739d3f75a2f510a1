/**
 * The top-level controller: which screen is shown, the chosen mode, the chosen
 * length and cycle count, and the session configuration handed to the runner.
 */
module App {
  import opened Wrappers
  import opened Constants
  import opened ExerciseView

  datatype View = Selection | Exercise

  /** A length the range slider can produce: a whole number of minutes from 1 to 10. */
  predicate SliderValue(d: nat) {
    d % 60 == 0 && 60 <= d <= 600
  }

  /**
   * Every preset length is a slider position, but the slider offers more than
   * the presets (4, 6, 7, 8 and 9 minutes too).
   */
  lemma PresetsAreSliderValues()
    ensures forall i :: 0 <= i < |DURATIONS| ==> SliderValue(DURATIONS[i])
    ensures SliderValue(240) && 240 !in DURATIONS
  {
  }

  /**
   * The effect that runs when the mode id changes, as a function of the new
   * mode id and the current (selectedDuration, cycleCount). A default length
   * counts only when it is truthy (present and non-zero). A length picked on
   * the slider is overwritten like any other.
   */
  function ResetForMode(id: string, selectedDuration: nat, cycleCount: nat): (r: (nat, nat))
    requires id in MODES
    ensures id != CYCLE_MODE ==>
              r == (MODES[id].defaultDuration.value, cycleCount) && r.0 in DURATIONS
    ensures id == CYCLE_MODE ==> r == (selectedDuration, 4)
  {
    var m := Lookup(id);
    if m.defaultDuration.Some? && m.defaultDuration.value != 0 then
      (m.defaultDuration.value, cycleCount)
    else if m.id == CYCLE_MODE then
      (selectedDuration, m.defaultCycles.value)
    else
      (selectedDuration, cycleCount)
  }

  /**
   * The runner's configuration: the catalog record, the selected length, and a
   * cycle limit for the cycle-based mode only, so exactly one stop rule is active.
   */
  function SessionFor(id: string, selectedDuration: nat, cycleCount: nat): (s: Session)
    requires id in MODES
    ensures s.pattern == MODES[id] && s.duration == selectedDuration
    ensures WellFormed(s.pattern)
    ensures s.cycleLimit.Some? <==> id == CYCLE_MODE
    ensures s.cycleLimit.Some? <==> s.pattern.defaultDuration.None?
    ensures s.cycleLimit.Some? ==> s.cycleLimit.value == cycleCount
  {
    var m := Lookup(id);
    Session(m, selectedDuration, if m.id == CYCLE_MODE then Some(cycleCount) else None)
  }

  /**
   * Choosing a new mode and starting at once runs that mode's default: a
   * time-based mode runs for its default length, which is a preset and a
   * slider position; the sleep mode runs 4 cycles.
   */
  lemma FreshChoiceRunsDefault(id: string, selectedDuration: nat, cycleCount: nat)
    requires id in MODES
    ensures var r := ResetForMode(id, selectedDuration, cycleCount);
      var s := SessionFor(id, r.0, r.1);
      && (id != CYCLE_MODE ==> s.cycleLimit.None? && Some(s.duration) == MODES[id].defaultDuration
                                && s.duration in DURATIONS && SliderValue(s.duration))
      && (id == CYCLE_MODE ==> s.cycleLimit == Some(4))
  {
  }

  class Controller {
    var currentModeId: string
    var view: View
    var selectedDuration: nat
    var cycleCount: nat
    /** The mounted exercise view, present exactly while the exercise screen is shown. */
    var runner: Runner?

    ghost predicate Valid()
      reads this
    {
      && currentModeId in MODES
      && SliderValue(selectedDuration)
      && (view == Exercise <==> runner != null)
      && (runner != null ==> runner.session == Config())
    }

    /** The session the exercise screen is given for the current choices. */
    function Config(): Session
      reads this
      requires currentModeId in MODES
    {
      SessionFor(currentModeId, selectedDuration, cycleCount)
    }

    /** Initial state; the mount-time run of the mode effect leaves grounding's 120 s unchanged. */
    constructor ()
      ensures Valid()
      ensures currentModeId == "grounding" && view == Selection
      ensures selectedDuration == 120 && cycleCount == 4 && runner == null
    {
      currentModeId := "grounding";
      view := Selection;
      selectedDuration := MODES["grounding"].defaultDuration.value;
      cycleCount := 4;
      runner := null;
    }

    /**
     * A mode button on the selection screen. Choosing the mode already chosen
     * changes nothing (the effect runs only when the id changes); otherwise the
     * length or the cycle count is reset to the new mode's default.
     */
    method SetMode(id: string)
      requires Valid() && view == Selection && id in MODES
      modifies this
      ensures Valid() && view == Selection && runner == null
      ensures currentModeId == id
      ensures (selectedDuration, cycleCount) ==
              if id == old(currentModeId) then old((selectedDuration, cycleCount))
              else ResetForMode(id, old(selectedDuration), old(cycleCount))
    {
      if id != currentModeId {
        currentModeId := id;
        var r := ResetForMode(id, selectedDuration, cycleCount);
        selectedDuration, cycleCount := r.0, r.1;
      }
    }

    /** The length slider on the selection screen (range 60 to 600, step 60). */
    method SetDuration(d: nat)
      requires Valid() && view == Selection && SliderValue(d)
      modifies this
      ensures Valid() && view == Selection && runner == null
      ensures selectedDuration == d
      ensures currentModeId == old(currentModeId) && cycleCount == old(cycleCount)
    {
      selectedDuration := d;
    }

    /** START: show the exercise screen, mounting a fresh runner for the current choices. */
    method HandleStart()
      requires Valid() && view == Selection
      modifies this
      ensures Valid() && view == Exercise
      ensures currentModeId == old(currentModeId)
      ensures selectedDuration == old(selectedDuration) && cycleCount == old(cycleCount)
      ensures runner != null && fresh(runner) && runner.Valid()
      ensures runner.session == Config() && runner.State() == Mount(Config())
    {
      view := Exercise;
      var s := Config();
      runner := new Runner(s.pattern, s.duration, s.cycleLimit);
    }

    /** `onStop`, from the STOP button or a stop rule: back to selection, the runner discarded. */
    method HandleStop()
      requires Valid()
      modifies this
      ensures Valid() && view == Selection && runner == null
      ensures currentModeId == old(currentModeId)
      ensures selectedDuration == old(selectedDuration) && cycleCount == old(cycleCount)
    {
      view := Selection;
      runner := null;
    }
  }
}
