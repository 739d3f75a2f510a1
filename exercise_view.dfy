/**
 * The exercise runner: the phase/cycle/time state machine of one breathing
 * session. The browser's timers are abstracted into discrete events: the first
 * animation frame (Begin), one elapsed second (Tick) and the expiry of the
 * one-shot phase timer (Expiry). A phase of d seconds lasts d ticks.
 *
 * The behaviour is given twice: as pure step functions on a RunnerState value,
 * which the lemmas reason about, and as the class Runner, whose fields are
 * updated in place by event methods proved to perform those steps.
 */
module ExerciseView {
  import opened Wrappers
  import opened Constants

  datatype Phase = Ready | Inhale | Hold | Exhale | HoldEmpty

  /** `mode[phase] || 0`: the configured seconds of a phase; the pseudo-phase Ready has none. */
  function PhaseDuration(p: BreathingPattern, ph: Phase): nat {
    match ph
    case Ready => 0
    case Inhale => p.inhale
    case Hold => p.hold
    case Exhale => p.exhale
    case HoldEmpty => p.holdEmpty
  }

  /** The order of the pattern's phases when none is skipped. */
  function Successor(ph: Phase): Phase {
    match ph
    case Ready => Inhale
    case Inhale => Hold
    case Hold => Exhale
    case Exhale => HoldEmpty
    case HoldEmpty => Inhale
  }

  /** A hold phase that the pattern gives no time. */
  predicate EmptyHold(p: BreathingPattern, ph: Phase) {
    (ph == Hold || ph == HoldEmpty) && PhaseDuration(p, ph) == 0
  }

  /**
   * The phase entered when the current one completes. Ready only ever leads to
   * Inhale, nothing leads back to Ready, and a hold without time is never entered.
   */
  function NextPhase(ph: Phase, p: BreathingPattern): (r: Phase)
    ensures r != Ready
    ensures !EmptyHold(p, r)
    ensures ph == Ready ==> r == Inhale
    ensures WellFormed(p) ==> PhaseDuration(p, r) > 0
  {
    match ph
    case Inhale => if p.hold > 0 then Hold else Exhale
    case Hold => Exhale
    case Exhale => if p.holdEmpty > 0 then HoldEmpty else Inhale
    case HoldEmpty => Inhale
    case Ready => Inhale
  }

  /** The transition rule is the phase order with the holds that have no time left out. */
  lemma NextPhaseSkipsEmptyHolds(ph: Phase, p: BreathingPattern)
    ensures NextPhase(ph, p) ==
            if EmptyHold(p, Successor(ph)) then Successor(Successor(ph)) else Successor(ph)
  {
  }

  /** Whether completing phase `ph` completes a breathing cycle. */
  function CompletesCycle(ph: Phase, p: BreathingPattern): bool {
    (ph == Exhale && p.holdEmpty == 0) || ph == HoldEmpty
  }

  /** A cycle is counted on exactly the edges that return to Inhale, Ready's first move excepted. */
  lemma CycleCountedOnReturnToInhale(ph: Phase, p: BreathingPattern)
    ensures CompletesCycle(ph, p) <==> ph != Ready && NextPhase(ph, p) == Inhale
  {
  }

  /** The on-screen instruction; Ready has none. */
  function Instruction(ph: Phase): (r: Option<string>)
    ensures r.None? <==> ph == Ready
    ensures ph == Inhale ==> r == Some("Inhale")
    ensures ph == Exhale ==> r == Some("Exhale")
    ensures ph == Hold || ph == HoldEmpty ==> r == Some("Hold")
  {
    match ph
    case Ready => None
    case Inhale => Some("Inhale")
    case Hold => Some("Hold")
    case Exhale => Some("Exhale")
    case HoldEmpty => Some("Hold")
  }

  /**
   * What the runner is given for one session: the pattern, the selected length
   * in seconds and, for the cycle-based pattern, the cycle limit (`null` otherwise).
   */
  datatype Session = Session(pattern: BreathingPattern, duration: nat, cycleLimit: Option<nat>)

  /**
   * The runner's state. `remaining` is the display-only countdown; `timerLeft`
   * is the time left on the pending one-shot phase timer, the one that decides
   * transitions; `stopRequested` records that a stop rule has called `onStop`.
   */
  datatype RunnerState = RunnerState(
    phase: Phase,
    elapsed: nat,
    cycles: nat,
    remaining: nat,
    timerLeft: nat,
    stopRequested: bool)

  /** The time rule; it applies only when there is no cycle limit. */
  predicate TimeUp(s: Session, elapsed: nat) {
    s.cycleLimit.None? && elapsed >= s.duration
  }

  /** The cycle rule; it applies only when there is a cycle limit. */
  predicate CycleLimitReached(s: Session, cycles: nat) {
    s.cycleLimit.Some? && cycles >= s.cycleLimit.value
  }

  /**
   * Whether a stop has been requested by a session that has run `elapsed`
   * seconds and completed `cycles` cycles. The cycle rule is only evaluated
   * when a cycle completes, hence `cycles > 0`.
   */
  predicate StopDue(s: Session, elapsed: nat, cycles: nat) {
    TimeUp(s, elapsed) || (cycles > 0 && CycleLimitReached(s, cycles))
  }

  /** The runner invariant. */
  predicate Consistent(s: Session, r: RunnerState) {
    && WellFormed(s.pattern)
    && r.remaining == r.timerLeft
    && (r.phase == Ready ==> r.elapsed == 0 && r.cycles == 0 && r.timerLeft == 0)
    && (r.phase != Ready ==>
          0 < PhaseDuration(s.pattern, r.phase) && r.timerLeft <= PhaseDuration(s.pattern, r.phase))
    && r.stopRequested == StopDue(s, r.elapsed, r.cycles)
  }

  /** A consistent state at a second boundary: any phase timer that was due has fired. */
  predicate Live(s: Session, r: RunnerState) {
    Consistent(s, r) && (r.phase == Ready || r.timerLeft > 0)
  }

  /** The state on mount; the time rule is evaluated once on mount. */
  function Mount(s: Session): (r: RunnerState)
    requires WellFormed(s.pattern)
    ensures Live(s, r)
    ensures r.phase == Ready && r.elapsed == 0 && r.cycles == 0
    ensures r.stopRequested <==> s.cycleLimit.None? && s.duration == 0
  {
    RunnerState(Ready, 0, 0, 0, 0, TimeUp(s, 0))
  }

  /** Switch to `ph`: the display counter and the phase timer both start at its duration. */
  function Enter(s: Session, r: RunnerState, ph: Phase): RunnerState {
    var d := PhaseDuration(s.pattern, ph);
    r.(phase := ph, remaining := d, timerLeft := d)
  }

  /** The first animation frame moves Ready to Inhale and nothing else. */
  function AfterBegin(s: Session, r: RunnerState): (r': RunnerState)
    requires Consistent(s, r) && r.phase == Ready
    ensures Live(s, r')
    ensures r'.phase == Inhale && r'.remaining == s.pattern.inhale
    ensures r'.elapsed == r.elapsed && r'.cycles == r.cycles && r'.stopRequested == r.stopRequested
  {
    Enter(s, r, Inhale)
  }

  /**
   * One second: the elapsed counter advances except in Ready, the display
   * counter counts down to 0 and stops there, the phase timer runs down, and
   * the time rule is re-evaluated.
   */
  function AfterTick(s: Session, r: RunnerState): (r': RunnerState)
    requires Live(s, r)
    ensures Consistent(s, r')
    ensures r'.phase == r.phase && r'.cycles == r.cycles
    ensures r'.elapsed == if r.phase == Ready then r.elapsed else r.elapsed + 1
    ensures r'.remaining == if r.remaining == 0 then 0 else r.remaining - 1
    ensures s.cycleLimit.None? ==> (r'.stopRequested <==> r'.elapsed >= s.duration)
    ensures s.cycleLimit.Some? ==> r'.stopRequested == r.stopRequested
  {
    var e := if r.phase == Ready then r.elapsed else r.elapsed + 1;
    r.(elapsed := e,
       remaining := if r.remaining == 0 then 0 else r.remaining - 1,
       timerLeft := if r.timerLeft == 0 then 0 else r.timerLeft - 1,
       stopRequested := r.stopRequested || TimeUp(s, e))
  }

  /**
   * The phase timer fires: move to the next phase, count a cycle on the edge
   * back to Inhale, and apply the cycle rule to the new count.
   */
  function AfterExpiry(s: Session, r: RunnerState): (r': RunnerState)
    requires Consistent(s, r) && r.phase != Ready && r.timerLeft == 0
    ensures Live(s, r') && r'.phase != Ready
    ensures r'.phase == NextPhase(r.phase, s.pattern)
    ensures r'.cycles == if r'.phase == Inhale then r.cycles + 1 else r.cycles
    ensures r'.elapsed == r.elapsed
    ensures r'.remaining == PhaseDuration(s.pattern, r'.phase) > 0
    ensures s.cycleLimit.Some? ==>
              (r'.stopRequested <==> r.stopRequested || (r'.cycles > r.cycles && r'.cycles >= s.cycleLimit.value))
    ensures s.cycleLimit.None? ==> r'.stopRequested == r.stopRequested
  {
    var done := CompletesCycle(r.phase, s.pattern);
    var c := if done then r.cycles + 1 else r.cycles;
    var stop := r.stopRequested || (done && CycleLimitReached(s, c));
    Enter(s, r.(cycles := c, stopRequested := stop), NextPhase(r.phase, s.pattern))
  }

  /** One second of wall time: the tick, then the phase timer if it is now due. */
  function Second(s: Session, r: RunnerState): (r': RunnerState)
    requires Live(s, r)
    ensures Live(s, r')
    ensures (r'.phase == Ready) == (r.phase == Ready)
    ensures r'.elapsed >= r.elapsed && r'.cycles >= r.cycles
  {
    var t := AfterTick(s, r);
    if t.phase != Ready && t.timerLeft == 0 then AfterExpiry(s, t) else t
  }

  /** `n` seconds of wall time. The runner never returns to Ready and the counters never decrease. */
  function Run(s: Session, r: RunnerState, n: nat): (r': RunnerState)
    requires Live(s, r)
    ensures Live(s, r')
    ensures (r'.phase == Ready) == (r.phase == Ready)
    ensures r'.elapsed >= r.elapsed && r'.cycles >= r.cycles
    ensures r.stopRequested ==> r'.stopRequested
    decreases n
  {
    if n == 0 then r else Run(s, Second(s, r), n - 1)
  }

  /** The runner of one session, its state held in fields that the events update in place. */
  class Runner {
    const session: Session
    var phase: Phase
    var elapsed: nat
    var cycles: nat
    var remaining: nat
    var timerLeft: nat
    var stopRequested: bool

    function State(): RunnerState
      reads this
    {
      RunnerState(phase, elapsed, cycles, remaining, timerLeft, stopRequested)
    }

    ghost predicate Valid()
      reads this
    {
      Consistent(session, State())
    }

    /** Mounting the view for a session; the patterns the runner accepts are the well-formed ones. */
    constructor (mode: BreathingPattern, duration: nat, cycleLimit: Option<nat>)
      requires WellFormed(mode)
      ensures session == Session(mode, duration, cycleLimit)
      ensures Valid() && State() == Mount(session)
    {
      session := Session(mode, duration, cycleLimit);
      phase := Ready;
      elapsed := 0;
      cycles := 0;
      remaining := 0;
      timerLeft := 0;
      // the time rule's effect also runs on mount
      stopRequested := cycleLimit.None? && 0 >= duration;
    }

    /** The first animation frame after mount. */
    method Begin()
      requires Valid() && phase == Ready
      modifies this
      ensures Valid() && State() == AfterBegin(session, old(State()))
    {
      phase := Inhale;
      remaining := session.pattern.inhale;
      timerLeft := session.pattern.inhale;
    }

    /** The one-second intervals fire (elapsed counter, display counter), then the time rule runs. */
    method Tick()
      requires Valid() && (phase == Ready || timerLeft > 0)
      modifies this
      ensures Valid() && State() == AfterTick(session, old(State()))
    {
      if phase != Ready {
        elapsed := elapsed + 1;
        timerLeft := timerLeft - 1;
      }
      remaining := if remaining == 0 then 0 else remaining - 1;
      if session.cycleLimit.None? && elapsed >= session.duration {
        stopRequested := true;
      }
    }

    /** The one-shot phase timer fires. */
    method PhaseExpired()
      requires Valid() && phase != Ready && timerLeft == 0
      modifies this
      ensures Valid() && State() == AfterExpiry(session, old(State()))
    {
      var completed := CompletesCycle(phase, session.pattern);
      phase := NextPhase(phase, session.pattern);
      if completed {
        cycles := cycles + 1;
        if session.cycleLimit.Some? && cycles >= session.cycleLimit.value {
          stopRequested := true;
        }
      }
      // entering the new phase restarts the display counter and arms its timer
      remaining := PhaseDuration(session.pattern, phase);
      timerLeft := remaining;
    }
  }
}
