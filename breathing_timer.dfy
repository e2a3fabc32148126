/** The timer of `src/components/BreathingExerciseActiveScreen.tsx`: a
    three-second countdown, then one tick per second that counts the current
    phase down and moves to the next phase, cyclically, when it runs out.
    `Tick` stands for one second of the `setTimeout` / `setInterval` timers. */
module BreathingTimer {
  import opened BreathingExercises

  const CountdownStart := 3

  datatype TimerState = TimerState(countdown: int, isStarted: bool, phaseIndex: int, secondsLeft: int)

  /** `useState(3)`, `useState(false)`, `useState(0)`, `useState(0)`. */
  const Initial := TimerState(CountdownStart, false, 0, 0)

  /** The state `startExercise` sets. */
  function Started(phases: seq<Phase>): TimerState
    requires |phases| > 0
  {
    TimerState(0, true, 0, phases[0].duration)
  }

  /** The interval callback: phase index and seconds left after one second. */
  function PhaseStep(phases: seq<Phase>, i: int, secs: int): (r: (int, int))
    requires 0 <= i < |phases|
    ensures 0 <= r.0 < |phases|
  {
    if secs <= 1 then
      var next := (i + 1) % |phases|;
      (next, phases[next].duration)
    else (i, secs - 1)
  }

  /** The states the component can be in. */
  predicate Valid(phases: seq<Phase>, st: TimerState) {
    && 0 <= st.countdown <= CountdownStart
    && 0 <= st.phaseIndex < |phases|
    && (st.isStarted <==> st.countdown == 0)
    && (!st.isStarted ==> st.phaseIndex == 0 && st.secondsLeft == 0)
    && (st.isStarted && Runnable(phases) ==> 1 <= st.secondsLeft <= phases[st.phaseIndex].duration)
  }

  /** One second: before the start the countdown drops by one, and the
      effect watching it starts the exercise the moment it reaches 0; after
      the start the interval callback runs. */
  function TickState(phases: seq<Phase>, st: TimerState): TimerState
    requires 0 <= st.phaseIndex < |phases|
  {
    if !st.isStarted then
      if st.countdown > 1 then st.(countdown := st.countdown - 1) else Started(phases)
    else
      var r := PhaseStep(phases, st.phaseIndex, st.secondsLeft);
      st.(phaseIndex := r.0, secondsLeft := r.1)
  }

  /** A tick keeps the state valid: the phase index stays in range and, with
      positive durations, the seconds left stay between 1 and the current
      phase's duration. */
  lemma TickPreservesValid(phases: seq<Phase>, st: TimerState)
    requires Valid(phases, st)
    ensures Valid(phases, TickState(phases, st))
  {
  }

  /** `k` seconds from `st`. */
  function Run(phases: seq<Phase>, st: TimerState, k: nat): (r: TimerState)
    requires Valid(phases, st)
    ensures Valid(phases, r)
    decreases k
  {
    if k == 0 then st
    else
      TickPreservesValid(phases, st);
      Run(phases, TickState(phases, st), k - 1)
  }

  lemma {:induction false} RunAdd(phases: seq<Phase>, st: TimerState, a: nat, b: nat)
    requires Valid(phases, st)
    ensures Run(phases, st, a + b) == Run(phases, Run(phases, st, a), b)
    decreases a
  {
    if a > 0 {
      TickPreservesValid(phases, st);
      RunAdd(phases, TickState(phases, st), a - 1, b);
    }
  }

  /** The countdown shows 3, 2, 1, and the exercise starts on the third
      second, at phase 0 with that phase's full duration. */
  lemma CountdownThenStart(phases: seq<Phase>)
    requires |phases| > 0
    ensures Valid(phases, Initial)
    ensures Run(phases, Initial, 1) == TimerState(2, false, 0, 0)
    ensures Run(phases, Initial, 2) == TimerState(1, false, 0, 0)
    ensures Run(phases, Initial, 3) == Started(phases)
  {
    var s1 := TimerState(2, false, 0, 0);
    var s2 := TimerState(1, false, 0, 0);
    assert TickState(phases, Initial) == s1 && TickState(phases, s1) == s2;
    assert TickState(phases, s2) == Started(phases);
    assert Run(phases, s2, 1) == Run(phases, Started(phases), 0);
    assert Run(phases, s1, 2) == Run(phases, s2, 1);
    assert Run(phases, Initial, 3) == Run(phases, s1, 2);
    assert Run(phases, Initial, 2) == Run(phases, s1, 1);
    assert Run(phases, s1, 1) == Run(phases, s2, 0);
  }

  /** Once started, the exercise stays started: `startExercise` runs once. */
  lemma {:induction false} StartedStaysStarted(phases: seq<Phase>, st: TimerState, k: nat)
    requires Valid(phases, st) && st.isStarted
    ensures Run(phases, st, k).isStarted && Run(phases, st, k).countdown == 0
    decreases k
  {
    if k > 0 {
      TickPreservesValid(phases, st);
      StartedStaysStarted(phases, TickState(phases, st), k - 1);
    }
  }

  /** From any second of a phase, the remaining seconds of it lead to the
      start of the next phase, wrapping after the last. */
  lemma {:induction false} PhaseRunsOut(phases: seq<Phase>, i: int, s: int)
    requires Runnable(phases) && 0 <= i < |phases| && 1 <= s <= phases[i].duration
    ensures var next := (i + 1) % |phases|;
      Run(phases, TimerState(0, true, i, s), s) == TimerState(0, true, next, phases[next].duration)
  {
    var st := TimerState(0, true, i, s);
    if s > 1 {
      assert TickState(phases, st) == TimerState(0, true, i, s - 1);
      PhaseRunsOut(phases, i, s - 1);
      RunAdd(phases, st, 1, s - 1);
    } else {
      RunAdd(phases, st, 1, 0);
    }
  }

  /** The total duration of the phases from `j` on. */
  function SumFrom(phases: seq<Phase>, j: nat): int
    decreases |phases| - j
  {
    if j >= |phases| then 0 else phases[j].duration + SumFrom(phases, j + 1)
  }

  lemma {:induction false} CycleFrom(phases: seq<Phase>, j: int)
    requires Runnable(phases) && 0 <= j < |phases|
    ensures SumFrom(phases, j) >= 1
    ensures Run(phases, TimerState(0, true, j, phases[j].duration), SumFrom(phases, j)) == Started(phases)
    decreases |phases| - j
  {
    var start := TimerState(0, true, j, phases[j].duration);
    PhaseRunsOut(phases, j, phases[j].duration);
    assert SumFrom(phases, j) == phases[j].duration + SumFrom(phases, j + 1);
    if j == |phases| - 1 {
      assert SumFrom(phases, j + 1) == 0;
      assert (j + 1) % |phases| == 0;
    } else {
      var next := TimerState(0, true, j + 1, phases[j + 1].duration);
      assert (j + 1) % |phases| == j + 1;
      assert Run(phases, start, phases[j].duration) == next;
      CycleFrom(phases, j + 1);
      RunAdd(phases, start, phases[j].duration, SumFrom(phases, j + 1));
    }
  }

  /** After the sum of all durations in seconds the exercise is back at
      phase 0 with the full phase-0 duration. */
  lemma FullCycle(phases: seq<Phase>)
    requires Runnable(phases)
    ensures SumFrom(phases, 0) >= 1
    ensures Run(phases, Started(phases), SumFrom(phases, 0)) == Started(phases)
  {
    CycleFrom(phases, 0);
  }

  /** Every exercise of the table runs on the timer with the bounds above. */
  lemma TableExercisesRunnable(e: Exercise)
    requires e in Exercises
    ensures Runnable(e.phases) && Valid(e.phases, Initial)
  {
    ExercisesWellFormed();
  }

  class Timer {
    const phases: seq<Phase>
    var countdown: int
    var isStarted: bool
    var phaseIndex: int
    var secondsLeft: int

    function State(): TimerState
      reads this
    {
      TimerState(countdown, isStarted, phaseIndex, secondsLeft)
    }

    /** The component mounted with an exercise; `phases[0]` must exist. */
    constructor(phases: seq<Phase>)
      requires |phases| > 0
      ensures this.phases == phases && State() == Initial && Valid(phases, State())
    {
      this.phases := phases;
      countdown := CountdownStart;
      isStarted := false;
      phaseIndex := 0;
      secondsLeft := 0;
    }

    /** `startExercise()`. */
    method StartExercise()
      requires |phases| > 0
      modifies this
      ensures isStarted && phaseIndex == 0 && secondsLeft == phases[0].duration && countdown == old(countdown)
    {
      isStarted := true;
      phaseIndex := 0;
      secondsLeft := phases[0].duration;
    }

    /** One second of the timers. */
    method Tick()
      requires Valid(phases, State())
      modifies this
      ensures Valid(phases, State())
      ensures State() == TickState(phases, old(State()))
    {
      TickPreservesValid(phases, State());
      if !isStarted {
        countdown := countdown - 1;
        if countdown == 0 {
          StartExercise();
        }
      } else {
        if secondsLeft <= 1 {
          var nextIndex := (phaseIndex + 1) % |phases|;
          phaseIndex := nextIndex;
          secondsLeft := phases[nextIndex].duration;
        } else {
          secondsLeft := secondsLeft - 1;
        }
      }
    }
  }
}
