/** The discrete rules of `src/pages/CompanionPage.tsx`: the animation phase
    advanced from the per-frame callback, what is shown in each phase, the
    zoom progress clamp, and the mute and agent toggles. The camera's
    floating-point "close enough" tests are Boolean inputs of each frame. */
module CompanionPage {
  import opened Wrappers

  datatype AnimationPhase = Idle | ResettingCamera | ZoomingIn | NeutronStarVisible

  /** The position of a phase in the sequence of the call animation. */
  function Rank(p: AnimationPhase): nat {
    match p
    case Idle => 0
    case ResettingCamera => 1
    case ZoomingIn => 2
    case NeutronStarVisible => 3
  }

  /** The outcome of the distance tests of one frame: the camera and the
      controls' target are back within `epsilon` of their reset points (the
      target counts as reset when there are no controls), and the camera is
      within 0.05 of the zoomed-in point. */
  datatype FrameProbe = FrameProbe(positionResetComplete: bool, targetResetComplete: bool, zoomReached: bool)

  /** The phase after one frame of `AnimationController`. */
  function FramePhase(p: AnimationPhase, probe: FrameProbe): (q: AnimationPhase)
    ensures q == p || Rank(q) == Rank(p) + 1
    ensures p == ResettingCamera && q != p ==> probe.positionResetComplete && probe.targetResetComplete
    ensures p == ZoomingIn && q != p ==> probe.zoomReached
    ensures p == Idle || p == NeutronStarVisible ==> q == p
  {
    match p
    case ResettingCamera =>
      if probe.positionResetComplete && probe.targetResetComplete then ZoomingIn else ResettingCamera
    case ZoomingIn =>
      if probe.zoomReached then NeutronStarVisible else ZoomingIn
    case _ => p
  }

  /** `handleEnterCall`. */
  function EnterCall(p: AnimationPhase): AnimationPhase {
    ResettingCamera
  }

  /** The phase after a sequence of frames. */
  function Frames(p: AnimationPhase, probes: seq<FrameProbe>): AnimationPhase
    decreases |probes|
  {
    if probes == [] then p else Frames(FramePhase(p, probes[0]), probes[1..])
  }

  /** Phases only move forward, by at most one step per frame, and once the
      neutron star is visible nothing moves. */
  lemma {:induction false} FramesMoveForward(p: AnimationPhase, probes: seq<FrameProbe>)
    ensures Rank(p) <= Rank(Frames(p, probes)) <= Rank(p) + |probes|
    ensures p == NeutronStarVisible ==> Frames(p, probes) == NeutronStarVisible
    decreases |probes|
  {
    if probes != [] {
      FramesMoveForward(FramePhase(p, probes[0]), probes[1..]);
    }
  }

  /** After entering a call, the page never returns to idle, whatever the
      frames report. */
  lemma NoWayBackToIdle(p: AnimationPhase, probes: seq<FrameProbe>)
    ensures Frames(EnterCall(p), probes) != Idle
  {
    FramesMoveForward(EnterCall(p), probes);
  }

  /** Zooming in cannot start in the frame the reset starts unless both
      resets are already complete. */
  lemma ZoomNeedsBothResets(probe: FrameProbe)
    requires !(probe.positionResetComplete && probe.targetResetComplete)
    ensures FramePhase(ResettingCamera, probe) == ResettingCamera
  {
  }

  /** A frame that completes both resets followed by a frame that reaches
      the zoomed-in point shows the neutron star. */
  lemma StarAfterResetAndZoom(reset: FrameProbe, zoom: FrameProbe)
    requires reset.positionResetComplete && reset.targetResetComplete && zoom.zoomReached
    ensures Frames(ResettingCamera, [reset, zoom]) == NeutronStarVisible
  {
    assert [reset, zoom][1..] == [zoom];
    assert Frames(ResettingCamera, [reset, zoom]) == Frames(ZoomingIn, [zoom]);
    assert Frames(ZoomingIn, [zoom]) == Frames(NeutronStarVisible, []);
  }

  predicate ShowInitialSphere(p: AnimationPhase) {
    p == Idle || p == ResettingCamera || p == ZoomingIn
  }

  predicate ShowAnimatingSphere(p: AnimationPhase) {
    p == NeutronStarVisible
  }

  /** Orbit controls and the "Try a call" button: idle only. */
  predicate ControlsEnabled(p: AnimationPhase) {
    p == Idle
  }

  /** The call buttons (interrupt and mute) are shown with the neutron star. */
  predicate ShowCallButtons(p: AnimationPhase) {
    p == NeutronStarVisible
  }

  /** Exactly one sphere is shown in every phase, the controls are enabled
      only while idle, and the call buttons only with the animating sphere. */
  lemma VisibilityRules(p: AnimationPhase)
    ensures ShowInitialSphere(p) != ShowAnimatingSphere(p)
    ensures ControlsEnabled(p) ==> ShowInitialSphere(p)
    ensures ShowCallButtons(p) <==> ShowAnimatingSphere(p)
    ensures ControlsEnabled(p) <==> Rank(p) == 0
  {
  }

  /** `Math.max(lo, Math.min(hi, x))`. */
  function Clamp(lo: real, hi: real, x: real): real {
    if x > hi then (if hi < lo then lo else hi) else if x < lo then lo else x
  }

  /** The zoom progress: the fraction of the distance covered, clamped to
      [0, 1], and 1 when the total distance is negligible. */
  function ZoomProgress(distTotal: real, distCurrent: real): (progress: real)
    ensures 0.0 <= progress <= 1.0
    ensures distTotal > 0.001 && 0.0 <= distCurrent <= distTotal ==> progress == 1.0 - distCurrent / distTotal
    ensures distTotal <= 0.001 ==> progress == 1.0
  {
    if distTotal > 0.001 then Clamp(0.0, 1.0, 1.0 - distCurrent / distTotal) else 1.0
  }

  /** The zoom speed interpolates between its minimum and maximum. */
  function ZoomSpeed(progress: real): (speed: real)
    requires 0.0 <= progress <= 1.0
    ensures 0.5 <= speed <= 2.5
  {
    0.5 + (2.5 - 0.5) * progress
  }

  /** The camera at the start of the zoom has progress 0; at the zoomed-in
      point it has progress 1. */
  lemma ZoomProgressEnds(distTotal: real)
    requires distTotal > 0.001
    ensures ZoomProgress(distTotal, distTotal) == 0.0
    ensures ZoomProgress(distTotal, 0.0) == 1.0
  {
  }

  datatype AgentState = Listening | Interruptible

  /** The state updater of `handleInterruptClick`. */
  function ToggleAgent(a: AgentState): (b: AgentState)
    ensures b != a
  {
    if a == Listening then Interruptible else Listening
  }

  /** Toggling the agent twice restores its state. */
  lemma ToggleAgentInvolution(a: AgentState)
    ensures ToggleAgent(ToggleAgent(a)) == a
  {
  }

  /** The terms dialog shows on mount unless the stored flag is `'true'`. */
  function ShowTermsOnMount(accepted: Option<string>): bool {
    accepted != Some("true")
  }

  /** The page state held in `useState`. */
  class Companion {
    var animationPhase: AnimationPhase
    var isMuted: bool
    var agentState: AgentState
    var showTermsModal: bool

    /** Mounting with the stored terms flag. */
    constructor(accepted: Option<string>)
      ensures animationPhase == Idle && !isMuted && agentState == Listening
      ensures showTermsModal == ShowTermsOnMount(accepted)
    {
      animationPhase := Idle;
      isMuted := false;
      agentState := Listening;
      showTermsModal := accepted != Some("true");
    }

    /** `handleAcceptTerms`; the storage writes are left out. */
    method AcceptTerms()
      modifies this
      ensures !showTermsModal
      ensures animationPhase == old(animationPhase) && isMuted == old(isMuted) && agentState == old(agentState)
    {
      showTermsModal := false;
    }

    /** `handleEnterCall`. */
    method HandleEnterCall()
      modifies this
      ensures animationPhase == EnterCall(old(animationPhase))
      ensures isMuted == old(isMuted) && agentState == old(agentState) && showTermsModal == old(showTermsModal)
    {
      animationPhase := ResettingCamera;
    }

    /** One frame of the animation controller. */
    method Frame(probe: FrameProbe)
      modifies this
      ensures animationPhase == FramePhase(old(animationPhase), probe)
      ensures isMuted == old(isMuted) && agentState == old(agentState) && showTermsModal == old(showTermsModal)
    {
      if animationPhase == ResettingCamera {
        if probe.positionResetComplete && probe.targetResetComplete {
          animationPhase := ZoomingIn;
        }
      } else if animationPhase == ZoomingIn {
        if probe.zoomReached {
          animationPhase := NeutronStarVisible;
        }
      }
    }

    /** `handleMuteClick`. */
    method HandleMuteClick()
      modifies this
      ensures isMuted == !old(isMuted)
      ensures animationPhase == old(animationPhase) && agentState == old(agentState) && showTermsModal == old(showTermsModal)
    {
      isMuted := !isMuted;
    }

    /** `handleInterruptClick`. */
    method HandleInterruptClick()
      modifies this
      ensures agentState == ToggleAgent(old(agentState))
      ensures animationPhase == old(animationPhase) && isMuted == old(isMuted) && showTermsModal == old(showTermsModal)
    {
      agentState := if agentState == Listening then Interruptible else Listening;
    }
  }
}
