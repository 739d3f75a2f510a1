/**
 * What a session does over time. For a well-formed pattern, the runner's state
 * n seconds after the first frame has a closed form (From): the cycle count is
 * n divided by the cycle length, and the remainder fixes the phase and the time
 * left in it. The stop rules, the one-cycle-per-traversal property and the
 * worked scenarios of the catalog all follow from it.
 */
module Timeline {
  import opened Wrappers
  import opened Constants
  import opened ExerciseView

  /** The state once the first frame has moved the session to Inhale. */
  function Started(s: Session): RunnerState
    requires WellFormed(s.pattern)
  {
    AfterBegin(s, Mount(s))
  }

  /** The state at the very start of an inhale, `e` seconds in, after `c` cycles. */
  function CycleStart(s: Session, e: nat, c: nat): RunnerState {
    RunnerState(Inhale, e, c, s.pattern.inhale, s.pattern.inhale, StopDue(s, e, c))
  }

  /** The phase that is current `m` seconds into a cycle. */
  function PhaseAt(p: BreathingPattern, m: nat): Phase {
    if m < p.inhale then Inhale
    else if m < p.inhale + p.hold then Hold
    else if m < p.inhale + p.hold + p.exhale then Exhale
    else HoldEmpty
  }

  /** The offset into the cycle at which the phase current at offset `m` ends. */
  function PhaseEnd(p: BreathingPattern, m: nat): (r: nat)
    requires m < CycleLength(p)
    ensures m < r <= CycleLength(p)
    ensures r - m <= PhaseDuration(p, PhaseAt(p, m))
  {
    if m < p.inhale then p.inhale
    else if m < p.inhale + p.hold then p.inhale + p.hold
    else if m < p.inhale + p.hold + p.exhale then p.inhale + p.hold + p.exhale
    else CycleLength(p)
  }

  /** How far into its current cycle a session is after `n` seconds. */
  function Offset(n: nat, len: nat): (m: nat)
    requires len > 0
    ensures m < len && m == n % len
  {
    n % len
  }

  /** The state `n` seconds after the start of an inhale at `e` seconds and `c` cycles. */
  function From(s: Session, e: nat, c: nat, n: nat): RunnerState
    requires WellFormed(s.pattern)
  {
    var p := s.pattern;
    var len := CycleLength(p);
    var m := Offset(n, len);
    var q := n / len;
    var left := PhaseEnd(p, m) - m;
    RunnerState(PhaseAt(p, m), e + n, c + q, left, left, StopDue(s, e + n, c + q))
  }

  /** A phase that occurs at some offset of the cycle takes time. */
  lemma PhaseAtTakesTime(p: BreathingPattern, m: nat)
    requires WellFormed(p) && m < CycleLength(p)
    ensures PhaseAt(p, m) != Ready && PhaseDuration(p, PhaseAt(p, m)) > 0
  {
  }

  /** The closed form describes a live runner. */
  lemma FromIsLive(s: Session, e: nat, c: nat, n: nat)
    requires WellFormed(s.pattern)
    ensures Live(s, From(s, e, c, n))
  {
    PhaseAtTakesTime(s.pattern, n % CycleLength(s.pattern));
  }

  /**
   * At the end of a phase the transition rule enters the phase that the cycle
   * layout puts next, and a cycle completes exactly at the end of the layout.
   */
  lemma PhaseBoundary(p: BreathingPattern, m: nat)
    requires WellFormed(p) && m < CycleLength(p)
    ensures CompletesCycle(PhaseAt(p, m), p) <==> PhaseEnd(p, m) == CycleLength(p)
    ensures PhaseEnd(p, m) < CycleLength(p) ==>
              NextPhase(PhaseAt(p, m), p) == PhaseAt(p, PhaseEnd(p, m))
    ensures PhaseEnd(p, m) == CycleLength(p) ==> NextPhase(PhaseAt(p, m), p) == Inhale
  {
  }

  /** Inside a phase, one more second keeps the phase and its end. */
  lemma WithinPhase(p: BreathingPattern, m: nat)
    requires WellFormed(p) && m < CycleLength(p) && m + 1 < PhaseEnd(p, m)
    ensures PhaseAt(p, m + 1) == PhaseAt(p, m) && PhaseEnd(p, m + 1) == PhaseEnd(p, m)
  {
  }

  lemma MulGrows(a: int, len: int)
    requires a >= 1 && len > 0
    ensures a * len >= len
  {
  }

  /** Euclidean quotient and remainder are the only ones. */
  lemma DivModUnique(n: int, len: int, q: int, m: int)
    requires len > 0 && 0 <= m < len && n == q * len + m
    ensures n / len == q && n % len == m
  {
    var q0, m0 := n / len, n % len;
    assert n == q0 * len + m0;
    assert (q - q0) * len == m0 - m;
    if q > q0 { MulGrows(q - q0, len); }
    if q < q0 { MulGrows(q0 - q, len); }
  }

  lemma DivModNext(n: nat, len: nat)
    requires len > 0
    ensures n % len + 1 < len ==> (n + 1) / len == n / len && (n + 1) % len == n % len + 1
    ensures n % len + 1 == len ==> (n + 1) / len == n / len + 1 && (n + 1) % len == 0
  {
    var q, m := n / len, n % len;
    assert n == q * len + m;
    if m + 1 < len {
      DivModUnique(n + 1, len, q, m + 1);
    } else {
      DivModUnique(n + 1, len, q + 1, 0);
    }
  }

  /** Some cycle is complete exactly from the cycle length on. */
  lemma QuotientPositive(n: nat, len: nat)
    requires len > 0
    ensures n / len > 0 <==> n >= len
  {
    var q := n / len;
    assert n == q * len + n % len;
    if q > 0 { MulGrows(q, len); }
  }

  /** Running one second more is one more step; `Run` peels seconds from the front. */
  lemma {:induction false} RunSnoc(s: Session, r: RunnerState, n: nat)
    requires Live(s, r)
    ensures Run(s, r, n + 1) == Second(s, Run(s, r, n))
    decreases n
  {
    if n > 0 {
      RunSnoc(s, Second(s, r), n - 1);
    }
  }

  /** One second of the runner advances the closed form by one second. */
  lemma SecondFrom(s: Session, e: nat, c: nat, n: nat)
    requires WellFormed(s.pattern)
    ensures Live(s, From(s, e, c, n))
    ensures Second(s, From(s, e, c, n)) == From(s, e, c, n + 1)
  {
    var p := s.pattern;
    var len := CycleLength(p);
    var m := n % len;
    FromIsLive(s, e, c, n);
    FromIsLive(s, e, c, n + 1);
    DivModNext(n, len);
    PhaseAtTakesTime(p, m);
    PhaseBoundary(p, m);
    if m + 1 < PhaseEnd(p, m) {
      WithinPhase(p, m);
    } else if PhaseEnd(p, m) < len {
      assert (n + 1) % len == PhaseEnd(p, m);
    }
  }

  /** From the start of an inhale, the runner follows the closed form. */
  lemma {:induction false} RunFromCycleStart(s: Session, e: nat, c: nat, n: nat)
    requires WellFormed(s.pattern)
    ensures Live(s, CycleStart(s, e, c))
    ensures Run(s, CycleStart(s, e, c), n) == From(s, e, c, n)
  {
    assert CycleStart(s, e, c) == From(s, e, c, 0);
    FromIsLive(s, e, c, 0);
    if n > 0 {
      RunFromCycleStart(s, e, c, n - 1);
      RunSnoc(s, CycleStart(s, e, c), n - 1);
      SecondFrom(s, e, c, n - 1);
    }
  }

  /**
   * One full traversal of the pattern, whichever holds it has, takes exactly
   * its cycle length, adds exactly 1 to the cycle counter and ends at the start
   * of the next inhale.
   */
  lemma FullTraversal(s: Session, e: nat, c: nat)
    requires WellFormed(s.pattern)
    ensures Live(s, CycleStart(s, e, c))
    ensures Run(s, CycleStart(s, e, c), CycleLength(s.pattern))
            == CycleStart(s, e + CycleLength(s.pattern), c + 1)
  {
    var len := CycleLength(s.pattern);
    RunFromCycleStart(s, e, c, len);
    assert len / len == 1 && len % len == 0;
  }

  /**
   * `n` seconds after the first frame: `n` seconds have elapsed, `n / L`
   * cycles are complete, the phase is the one at offset `n % L` of the cycle,
   * and a stop has been requested exactly when a stop rule holds.
   */
  lemma SessionTimeline(s: Session, n: nat)
    requires WellFormed(s.pattern)
    ensures Live(s, Started(s))
    ensures Run(s, Started(s), n) == From(s, 0, 0, n)
    ensures Run(s, Started(s), n).elapsed == n
    ensures Run(s, Started(s), n).cycles == n / CycleLength(s.pattern)
    ensures Run(s, Started(s), n).phase == PhaseAt(s.pattern, n % CycleLength(s.pattern))
    ensures Run(s, Started(s), n).stopRequested == StopDue(s, n, n / CycleLength(s.pattern))
  {
    assert Started(s) == CycleStart(s, 0, 0);
    RunFromCycleStart(s, 0, 0, n);
  }

  /** Without a cycle limit, a stop is requested exactly from second `duration` on. */
  lemma TimeRule(s: Session, n: nat)
    requires WellFormed(s.pattern) && s.cycleLimit.None?
    ensures Live(s, Started(s))
    ensures Run(s, Started(s), n).stopRequested <==> n >= s.duration
  {
    SessionTimeline(s, n);
  }

  /**
   * With a cycle limit the time rule is never evaluated: a stop is requested
   * exactly once at least one cycle, and at least the limit, have completed.
   */
  lemma CycleRule(s: Session, n: nat)
    requires WellFormed(s.pattern) && s.cycleLimit.Some?
    ensures Live(s, Started(s))
    ensures Run(s, Started(s), n).stopRequested <==>
              n >= CycleLength(s.pattern) && n / CycleLength(s.pattern) >= s.cycleLimit.value
  {
    SessionTimeline(s, n);
    QuotientPositive(n, CycleLength(s.pattern));
  }

  /** Before the first frame, nothing advances however long the wait. */
  lemma {:induction false} NothingBeforeFirstFrame(s: Session, n: nat)
    requires WellFormed(s.pattern)
    ensures Run(s, Mount(s), n) == Mount(s)
  {
    if n > 0 {
      NothingBeforeFirstFrame(s, n - 1);
      RunSnoc(s, Mount(s), n - 1);
    }
  }

  /**
   * Grounding (4 s in, 6 s out) over its default 120 s: the phases alternate
   * inhale for 4 s and exhale for 6 s, the stop is first requested at second
   * 120 (not 119), and by then exactly 12 cycles are complete.
   */
  lemma GroundingScenario(n: nat)
    ensures var s := Session(MODES["grounding"], 120, None);
      && Live(s, Started(s))
      && Run(s, Started(s), n).phase == (if n % 10 < 4 then Inhale else Exhale)
      && (Run(s, Started(s), n).stopRequested <==> n >= 120)
      && Run(s, Started(s), 120).cycles == 12
  {
    var s := Session(MODES["grounding"], 120, None);
    assert CycleLength(s.pattern) == 10;
    SessionTimeline(s, n);
    SessionTimeline(s, 120);
  }

  /**
   * Sleep (4 s in, 7 s hold, 8 s out) limited to 4 cycles, whatever length is
   * selected: the phases run inhale, hold, exhale in every cycle and the empty
   * hold after exhale is never entered, the stop is first
   * requested at second 76, when the 4th cycle completes and a new inhale begins.
   */
  lemma SleepScenario(duration: nat, n: nat)
    ensures var s := Session(MODES["sleep"], duration, Some(4));
      && Live(s, Started(s))
      && Run(s, Started(s), n).phase ==
           (if n % 19 < 4 then Inhale else if n % 19 < 11 then Hold else Exhale)
      && (Run(s, Started(s), n).stopRequested <==> n >= 76)
      && Run(s, Started(s), 76).cycles == 4
      && Run(s, Started(s), 76).phase == Inhale
  {
    var s := Session(MODES["sleep"], duration, Some(4));
    assert CycleLength(s.pattern) == 19;
    SessionTimeline(s, n);
    SessionTimeline(s, 76);
  }
}
