/** The crisis modal of `src/components/CrisisButton.tsx`: four pieces of
    view state, the handlers that set them, and the choice of sub-screen. */
module CrisisButton {
  import opened Wrappers
  import opened BreathingExercises

  datatype ModalState = ModalState(isModalOpen: bool, showBreathingExercises: bool, showGroundingExercise: bool, activeExercise: Option<Exercise>)

  const Initial := ModalState(false, false, false, None)

  /** What the open modal shows. */
  datatype Screen = Closed | ActiveExercise(exercise: Exercise) | ExerciseSelection | Grounding | CrisisResources

  /** The nested conditional of the dialog body: the breathing flag is
      tested before the grounding flag. */
  function ScreenOf(st: ModalState): (s: Screen)
    ensures s == Closed <==> !st.isModalOpen
    ensures st.isModalOpen && st.showBreathingExercises ==> (s == ExerciseSelection <==> st.activeExercise == None)
    ensures st.isModalOpen && st.showBreathingExercises && st.activeExercise.Some? ==> s == ActiveExercise(st.activeExercise.value)
    ensures s == Grounding <==> st.isModalOpen && !st.showBreathingExercises && st.showGroundingExercise
    ensures s == CrisisResources <==> st.isModalOpen && !st.showBreathingExercises && !st.showGroundingExercise
  {
    if !st.isModalOpen then Closed
    else if st.showBreathingExercises then
      (if st.activeExercise.Some? then ActiveExercise(st.activeExercise.value) else ExerciseSelection)
    else if st.showGroundingExercise then Grounding
    else CrisisResources
  }

  /** The user actions: the hidden trigger, the two exercise buttons, the
      selection screen's select and back, the active screen's close and back,
      the grounding back arrow, the close button and a click outside. */
  datatype Event =
    | OpenModal
    | BreathingClick
    | GroundingClick
    | ExerciseSelect(exercise: Exercise)
    | ExerciseClose
    | BackToExercises
    | SelectionBack
    | GroundingBack
    | CloseModal
    | ClickOutside

  /** The state each handler leaves. The click-outside listener is attached
      only while the modal is open. */
  function Handle(st: ModalState, e: Event): ModalState {
    match e
    case OpenModal => st.(isModalOpen := true)
    case BreathingClick => st.(showBreathingExercises := true, showGroundingExercise := false)
    case GroundingClick => st.(showGroundingExercise := true, showBreathingExercises := false)
    case ExerciseSelect(x) => st.(activeExercise := Some(x))
    case ExerciseClose => st.(activeExercise := None, showBreathingExercises := false, isModalOpen := false)
    case BackToExercises => st.(activeExercise := None)
    case SelectionBack => st.(showBreathingExercises := false)
    case GroundingBack => st.(showGroundingExercise := false)
    case CloseModal => st.(isModalOpen := false)
    case ClickOutside => if st.isModalOpen then Initial else st
  }

  /** The breathing handler sets breathing and clears grounding; the
      grounding handler does the reverse; neither touches the rest. */
  lemma ExerciseButtonsExclusive(st: ModalState)
    ensures var b := Handle(st, BreathingClick);
      b.showBreathingExercises && !b.showGroundingExercise && b.isModalOpen == st.isModalOpen && b.activeExercise == st.activeExercise
    ensures var g := Handle(st, GroundingClick);
      g.showGroundingExercise && !g.showBreathingExercises && g.isModalOpen == st.isModalOpen && g.activeExercise == st.activeExercise
  {
  }

  /** Closing the active exercise clears it, leaves the breathing screen and
      closes the modal; "back to exercises" clears only the exercise. */
  lemma ExerciseScreenExits(st: ModalState)
    ensures var c := Handle(st, ExerciseClose);
      c.activeExercise == None && !c.showBreathingExercises && !c.isModalOpen && c.showGroundingExercise == st.showGroundingExercise
    ensures Handle(st, BackToExercises) == st.(activeExercise := None)
  {
  }

  /** A click outside the open modal resets all four pieces of state. */
  lemma ClickOutsideResets(st: ModalState)
    requires st.isModalOpen
    ensures Handle(st, ClickOutside) == Initial
  {
  }

  /** The state after a sequence of events. */
  function Run(st: ModalState, events: seq<Event>): ModalState
    decreases |events|
  {
    if events == [] then st else Run(Handle(st, events[0]), events[1..])
  }

  /** The breathing and grounding screens are never both requested. */
  predicate Exclusive(st: ModalState) {
    !(st.showBreathingExercises && st.showGroundingExercise)
  }

  /** Every handler keeps the two exercise flags exclusive. */
  lemma HandlePreservesExclusive(st: ModalState, e: Event)
    requires Exclusive(st)
    ensures Exclusive(Handle(st, e))
  {
  }

  /** From the initial state, no sequence of handlers turns on breathing and
      grounding together. */
  lemma {:induction false} RunExclusive(st: ModalState, events: seq<Event>)
    requires Exclusive(st)
    ensures Exclusive(Run(st, events))
    decreases |events|
  {
    if events != [] {
      HandlePreservesExclusive(st, events[0]);
      RunExclusive(Handle(st, events[0]), events[1..]);
    }
  }

  lemma NeverBothFromInitial(events: seq<Event>)
    ensures Exclusive(Run(Initial, events))
  {
    RunExclusive(Initial, events);
  }

  /** Whether the control that raises `e` is on screen in `st`: the trigger
      can always be clicked, the outside-click listener exists while the
      modal is open, and every other control belongs to one sub-screen. */
  predicate Enabled(st: ModalState, e: Event) {
    match e
    case OpenModal => true
    case ClickOutside => st.isModalOpen
    case BreathingClick => ScreenOf(st) == CrisisResources
    case GroundingClick => ScreenOf(st) == CrisisResources
    case CloseModal => ScreenOf(st) == CrisisResources
    case ExerciseSelect(_) => ScreenOf(st) == ExerciseSelection
    case SelectionBack => ScreenOf(st) == ExerciseSelection
    case ExerciseClose => ScreenOf(st).ActiveExercise?
    case BackToExercises => ScreenOf(st).ActiveExercise?
    case GroundingBack => ScreenOf(st) == Grounding
  }

  /** Reachable states: the flags are exclusive, an exercise is active only
      on the breathing screen, and a closed modal holds no sub-screen. */
  predicate Tidy(st: ModalState) {
    && Exclusive(st)
    && (st.activeExercise.Some? ==> st.showBreathingExercises)
    && (!st.isModalOpen ==> !st.showBreathingExercises && !st.showGroundingExercise)
  }

  lemma HandlePreservesTidy(st: ModalState, e: Event)
    requires Tidy(st) && Enabled(st, e)
    ensures Tidy(Handle(st, e))
  {
  }

  /** Reopening the modal after any sequence of on-screen actions shows the
      crisis resources again. */
  lemma {:induction false} ReopenShowsResources(st: ModalState, events: seq<Event>)
    requires Tidy(st)
    requires forall i :: 0 <= i < |events| ==> Enabled(Run(st, events[..i]), events[i])
    ensures Tidy(Run(st, events))
    ensures !Run(st, events).isModalOpen ==> ScreenOf(Handle(Run(st, events), OpenModal)) == CrisisResources
    decreases |events|
  {
    if events != [] {
      assert events[..0] == [];
      HandlePreservesTidy(st, events[0]);
      var rest := events[1..];
      forall i | 0 <= i < |rest|
        ensures Enabled(Run(Handle(st, events[0]), rest[..i]), rest[i])
      {
        assert events[..i + 1] == [events[0]] + rest[..i];
        assert Run(st, events[..i + 1]) == Run(Handle(st, events[0]), rest[..i]);
      }
      ReopenShowsResources(Handle(st, events[0]), rest);
    }
  }

  /** The component, holding the four `useState` values. */
  class CrisisModal {
    var isModalOpen: bool
    var showBreathingExercises: bool
    var showGroundingExercise: bool
    var activeExercise: Option<Exercise>

    function State(): ModalState
      reads this
    {
      ModalState(isModalOpen, showBreathingExercises, showGroundingExercise, activeExercise)
    }

    constructor()
      ensures State() == Initial
    {
      isModalOpen := false;
      showBreathingExercises := false;
      showGroundingExercise := false;
      activeExercise := None;
    }

    /** The hidden trigger button. */
    method Open()
      modifies this
      ensures State() == Handle(old(State()), OpenModal)
    {
      isModalOpen := true;
    }

    /** `handleBreathingClick`. */
    method HandleBreathingClick()
      modifies this
      ensures State() == Handle(old(State()), BreathingClick)
    {
      showBreathingExercises := true;
      showGroundingExercise := false;
    }

    /** `handleGroundingClick`. */
    method HandleGroundingClick()
      modifies this
      ensures State() == Handle(old(State()), GroundingClick)
    {
      showGroundingExercise := true;
      showBreathingExercises := false;
    }

    /** `handleExerciseSelect`. */
    method HandleExerciseSelect(exercise: Exercise)
      modifies this
      ensures State() == Handle(old(State()), ExerciseSelect(exercise))
    {
      activeExercise := Some(exercise);
    }

    /** `handleExerciseClose`. */
    method HandleExerciseClose()
      modifies this
      ensures State() == Handle(old(State()), ExerciseClose)
    {
      activeExercise := None;
      showBreathingExercises := false;
      isModalOpen := false;
    }

    /** `handleBackToExercises`. */
    method HandleBackToExercises()
      modifies this
      ensures State() == Handle(old(State()), BackToExercises)
    {
      activeExercise := None;
    }

    /** The selection screen's back button. */
    method SelectionBack()
      modifies this
      ensures State() == Handle(old(State()), Event.SelectionBack)
    {
      showBreathingExercises := false;
    }

    /** The grounding screen's back arrow. */
    method GroundingBack()
      modifies this
      ensures State() == Handle(old(State()), Event.GroundingBack)
    {
      showGroundingExercise := false;
    }

    /** The close button of the crisis resources screen. */
    method Close()
      modifies this
      ensures State() == Handle(old(State()), CloseModal)
    {
      isModalOpen := false;
    }

    /** The document `mousedown` listener, for a target outside the dialog. */
    method HandleClickOutside()
      modifies this
      ensures State() == Handle(old(State()), ClickOutside)
    {
      if isModalOpen {
        isModalOpen := false;
        showBreathingExercises := false;
        showGroundingExercise := false;
        activeExercise := None;
      }
    }
  }
}
