/**
 * The immutable pattern catalog of the breathing widget: the `MODES` table,
 * keyed by mode id, and the exported list of preset session lengths `DURATIONS`.
 */
module Constants {
  import opened Wrappers

  /** One breathing pattern. Phase durations are whole seconds. */
  datatype BreathingPattern = BreathingPattern(
    id: string,
    title: string,
    buttonLabel: string,
    inhale: nat,
    hold: nat,
    exhale: nat,
    holdEmpty: nat,
    defaultDuration: Option<nat>,  // `null` for the cycle-based pattern
    defaultCycles: Option<nat>,    // present only on the cycle-based pattern
    gradient: string,
    textColor: string)

  const GROUNDING := BreathingPattern(
    "grounding", "Grounding", "Grounding (4-0-6s)",
    4, 0, 6, 0, Some(120), None,
    "var(--gradient-grounding)", "#365c7d")

  const CALM := BreathingPattern(
    "calm", "Calm & Rest", "Calm & Rest (5-0-5s)",
    5, 0, 5, 0, Some(300), None,
    "var(--gradient-calm)", "#2e7d32")

  // The label says 4-4-4, but the record gives the hold-after-exhale 4 seconds too.
  const FOCUS := BreathingPattern(
    "focus", "Focus", "Focus (4-4-4s)",
    4, 4, 4, 4, Some(180), None,
    "var(--gradient-focus)", "#d84315")

  const SLEEP := BreathingPattern(
    "sleep", "Sleep & Relax", "Sleep & Relax (4-7-8s)",
    4, 7, 8, 0, None, Some(4),
    "var(--gradient-sleep)", "#4527a0")

  /** The catalog, keyed by mode id. */
  const MODES: map<string, BreathingPattern> :=
    map["grounding" := GROUNDING, "calm" := CALM, "focus" := FOCUS, "sleep" := SLEEP]

  /**
   * Preset session lengths in seconds (1, 2, 3, 5 and 10 minutes). The list is
   * exported but not read anywhere: the length slider offers every whole minute
   * from 1 to 10 instead.
   */
  const DURATIONS: seq<nat> := [60, 120, 180, 300, 600]

  /** The id of the one pattern that stops by cycle count instead of by time. */
  const CYCLE_MODE := "sleep"

  /**
   * A pattern the runner can execute: both breathing phases take time, so a
   * zero-length hold is the only phase ever skipped and no chain of skips can
   * go on forever.
   */
  predicate WellFormed(p: BreathingPattern) {
    p.inhale > 0 && p.exhale > 0
  }

  /** Seconds taken by one full traversal of the pattern. */
  function CycleLength(p: BreathingPattern): nat {
    p.inhale + p.hold + p.exhale + p.holdEmpty
  }

  /** `MODES[id]`; an unknown id is a programming error, excluded by the precondition. */
  function Lookup(id: string): (p: BreathingPattern)
    requires id in MODES
    ensures p.id == id
    ensures WellFormed(p) && CycleLength(p) > 0
    ensures p.defaultDuration.None? <==> id == CYCLE_MODE
    ensures p.defaultDuration.Some? ==> p.defaultDuration.value in DURATIONS
  {
    MODES[id]
  }

  /** Every entry is stored under its own id. */
  lemma IdsMatchKeys()
    ensures forall id :: id in MODES ==> MODES[id].id == id
  {
  }

  /** Every entry can be run: positive inhale and exhale (holds are `nat`, so never negative). */
  lemma AllWellFormed()
    ensures forall id :: id in MODES ==> WellFormed(MODES[id])
  {
  }

  /** Only the sleep pattern has no default length, and it defaults to 4 cycles. */
  lemma OnlySleepCountsCycles()
    ensures forall id :: id in MODES ==> (MODES[id].defaultDuration.None? <==> id == CYCLE_MODE)
    ensures CYCLE_MODE in MODES && MODES[CYCLE_MODE].defaultCycles == Some(4)
  {
  }

  /** Every default length is one of the presets. */
  lemma DefaultsArePresets()
    ensures forall id :: id in MODES && MODES[id].defaultDuration.Some? ==>
              MODES[id].defaultDuration.value in DURATIONS
  {
  }

  /** The presets are strictly increasing whole minutes from 1 to 10. */
  lemma DurationsAreWholeMinutes()
    ensures forall i, j :: 0 <= i < j < |DURATIONS| ==> DURATIONS[i] < DURATIONS[j]
    ensures forall i :: 0 <= i < |DURATIONS| ==>
              DURATIONS[i] % 60 == 0 && 60 <= DURATIONS[i] <= 600
  {
  }

  /** Cycle lengths of the catalog; grounding's default length holds exactly 12 cycles. */
  lemma CycleLengths()
    ensures CycleLength(MODES["grounding"]) == 10
    ensures CycleLength(MODES["calm"]) == 10
    ensures CycleLength(MODES["focus"]) == 16
    ensures CycleLength(MODES["sleep"]) == 19
    ensures MODES["grounding"].defaultDuration == Some(12 * CycleLength(MODES["grounding"]))
  {
  }
}
