/** The `breathingExercises` table of
    `src/components/BreathingExerciseSelectionScreen.tsx`: the phase data the
    breathing timer runs on. */
module BreathingExercises {

  datatype PhaseType = Inhale | Hold | Exhale

  datatype Phase = Phase(kind: PhaseType, duration: int, instruction: string)

  datatype Exercise = Exercise(id: string, title: string, description: string, benefit: string, phases: seq<Phase>)

  const HoldBreath := "Hold your breath..."

  const Box := Exercise("box", "4-4-4 Box Breathing",
    "Inhale (4s) → Hold (4s) → Exhale (4s) → Hold (4s)",
    "Great for quick stress reduction",
    [Phase(Inhale, 4, "Inhale slowly through your nose..."),
     Phase(Hold, 4, HoldBreath),
     Phase(Exhale, 4, "Exhale slowly through your mouth..."),
     Phase(Hold, 4, HoldBreath)])

  const Relaxing := Exercise("478", "4-7-8 Relaxing Breath",
    "Inhale (4s) → Hold (7s) → Exhale (8s)",
    "Perfect for deep relaxation and sleep",
    [Phase(Inhale, 4, "Inhale quietly through your nose..."),
     Phase(Hold, 7, HoldBreath),
     Phase(Exhale, 8, "Exhale completely through your mouth...")])

  const Diaphragmatic := Exercise("diaphragmatic", "Diaphragmatic Breathing",
    "Deep belly breathing with focus on diaphragm movement",
    "Reduces stress and anxiety",
    [Phase(Inhale, 4, "Inhale deeply into your belly..."),
     Phase(Hold, 2, "Hold briefly..."),
     Phase(Exhale, 4, "Exhale slowly and completely...")])

  const Focus := Exercise("focus", "Breath Focus",
    "Mindful breathing with counting",
    "Enhances focus and calm",
    [Phase(Inhale, 5, "Breathe in while counting to 5..."),
     Phase(Hold, 2, "Pause briefly..."),
     Phase(Exhale, 5, "Breathe out while counting to 5...")])

  const Exercises: seq<Exercise> := [Box, Relaxing, Diaphragmatic, Focus]

  /** What the timer needs of an exercise: at least one phase (it reads
      `phases[0]`) and only positive durations. */
  predicate Runnable(phases: seq<Phase>) {
    |phases| > 0 && forall i :: 0 <= i < |phases| ==> phases[i].duration >= 1
  }

  function Durations(phases: seq<Phase>): (r: seq<int>)
    ensures |r| == |phases| && forall i :: 0 <= i < |r| ==> r[i] == phases[i].duration
  {
    seq(|phases|, i requires 0 <= i < |phases| => phases[i].duration)
  }

  /** Four exercises with distinct ids, each runnable and starting with an
      inhale. */
  lemma ExercisesWellFormed()
    ensures |Exercises| == 4
    ensures forall i, j :: 0 <= i < j < |Exercises| ==> Exercises[i].id != Exercises[j].id
    ensures forall i :: 0 <= i < |Exercises| ==> Runnable(Exercises[i].phases)
    ensures forall i :: 0 <= i < |Exercises| ==> Exercises[i].phases[0].kind == Inhale
  {
  }

  /** The durations match what the titles and descriptions announce. */
  lemma DurationsMatchDescriptions()
    ensures Durations(Box.phases) == [4, 4, 4, 4]
    ensures Durations(Relaxing.phases) == [4, 7, 8]
    ensures Durations(Diaphragmatic.phases) == [4, 2, 4]
    ensures Durations(Focus.phases) == [5, 2, 5]
  {
  }
}
