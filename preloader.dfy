/** The full-screen preloader: a particle field refreshed every 50 ms, a progress counter every
    100 ms, a phase caption every 800 ms, a completion timer, and a skip button. Intervals and
    timeouts are modelled as events that the environment delivers. */
module Preloader {
  import opened JsValues
  import opened LoadingTicks

  const ParticleCount: nat := 50
  const ParticleSpeed: real := 2.0
  const ParticleDecay: real := 0.5
  /** The particle list is regenerated when the captured length is below this. */
  const RegenerateBelow: real := 30.0
  const ProgressSpan: real := 8.0
  const SkipDelay: real := 500.0
  const OnCompleteDelay: real := 1500.0

  datatype TimerAction = MarkComplete | CallOnComplete

  /** A scheduled `setTimeout` that no cleanup ever clears. */
  datatype Timer = Timer(delay: real, action: TimerAction)

  class PreloaderView {
    const duration: real
    var progress: real
    var isComplete: bool
    var currentPhase: nat
    var particles: seq<Particle>
    /** `particles.length` as seen by the render whose effect installed the running particle interval. */
    var capturedLength: nat
    var progressIntervalActive: bool
    var intervalsActive: bool
    var completeTimerPending: bool
    /** Timeouts scheduled by the skip button and by the completion timer. */
    var timers: seq<Timer>
    var onCompleteCalls: nat
    var mouse: (real, real)

    /** Progress within [0, 110) and the phase a valid index into the five captions. */
    predicate Valid()
      reads this
    {
      0.0 <= progress < 100.0 + ProgressSpan + 2.0 && currentPhase < PhaseCount
    }

    /** The first render and its effects: a fresh particle list, the intervals and the
        completion timer of `duration` milliseconds. */
    constructor (duration: real, width: real, height: real, rand: nat -> real)
      ensures Valid()
      ensures this.duration == duration
      ensures progress == 0.0 && !isComplete && currentPhase == 0 && mouse == (0.0, 0.0)
      ensures particles == Generate(ParticleCount, ParticleSpeed, width, height, rand) && capturedLength == 0
      ensures progressIntervalActive && intervalsActive && completeTimerPending
      ensures timers == [] && onCompleteCalls == 0
    {
      this.duration := duration;
      progress := 0.0;
      isComplete := false;
      currentPhase := 0;
      mouse := (0.0, 0.0);
      particles := Generate(ParticleCount, ParticleSpeed, width, height, rand);
      capturedLength := 0;
      progressIntervalActive := true;
      intervalsActive := true;
      completeTimerPending := true;
      timers := [];
      onCompleteCalls := 0;
    }

    /** The particle effect re-runs after a render in which `particles.length` changed: it
        captures that length and generates a fresh list. */
    method ParticleEffectRuns(width: real, height: real, rand: nat -> real)
      requires intervalsActive
      modifies this`particles, this`capturedLength
      ensures capturedLength == |old(particles)|
      ensures particles == Generate(ParticleCount, ParticleSpeed, width, height, rand)
    {
      capturedLength := |particles|;
      particles := Generate(ParticleCount, ParticleSpeed, width, height, rand);
    }

    /** The 50 ms particle interval fires. */
    method ParticleIntervalFires(width: real, height: real, rand: nat -> real)
      requires intervalsActive
      modifies this`particles
      ensures particles == ParticleUpdate(old(particles), ParticleDecay, capturedLength, RegenerateBelow,
                                          Generate(ParticleCount, ParticleSpeed, width, height, rand))
    {
      particles := ParticleUpdate(particles, ParticleDecay, capturedLength, RegenerateBelow,
                                  Generate(ParticleCount, ParticleSpeed, width, height, rand));
    }

    /** The 100 ms progress interval fires with the draw `r`; at 100 it clears itself. */
    method ProgressIntervalFires(r: real)
      requires Valid() && intervalsActive && progressIntervalActive && 0.0 <= r < 1.0
      modifies this`progress, this`progressIntervalActive
      ensures Valid()
      ensures progress == NextProgress(old(progress), r, ProgressSpan)
      ensures progressIntervalActive == (old(progress) < 100.0)
    {
      if progress >= 100.0 {
        progressIntervalActive := false;
      }
      progress := NextProgress(progress, r, ProgressSpan);
    }

    /** The 800 ms phase interval fires. */
    method PhaseIntervalFires()
      requires Valid() && intervalsActive
      modifies this`currentPhase
      ensures Valid()
      ensures currentPhase == NextPhase(old(currentPhase))
    {
      currentPhase := NextPhase(currentPhase);
    }

    /** The completion timer fires after `duration`: complete, and `onComplete` 1500 ms later. */
    method CompleteTimerFires()
      requires completeTimerPending
      modifies this`isComplete, this`completeTimerPending, this`timers
      ensures isComplete && !completeTimerPending
      ensures timers == old(timers) + [Timer(OnCompleteDelay, CallOnComplete)]
    {
      isComplete := true;
      completeTimerPending := false;
      timers := timers + [Timer(OnCompleteDelay, CallOnComplete)];
    }

    /** The skip button: progress jumps to 100 and completion is scheduled 500 ms later. */
    method Skip()
      requires Valid()
      modifies this`progress, this`timers
      ensures Valid()
      ensures progress == 100.0
      ensures timers == old(timers) + [Timer(SkipDelay, MarkComplete)]
    {
      progress := 100.0;
      timers := timers + [Timer(SkipDelay, MarkComplete)];
    }

    /** The `i`-th pending timeout fires and is removed from the pending list. */
    method TimerFires(i: nat)
      requires i < |timers|
      modifies this`isComplete, this`timers, this`onCompleteCalls
      ensures var rest := old(timers[..i] + timers[i + 1..]);
              match old(timers[i].action)
              case MarkComplete =>
                isComplete && onCompleteCalls == old(onCompleteCalls)
                && timers == rest + [Timer(OnCompleteDelay, CallOnComplete)]
              case CallOnComplete =>
                isComplete == old(isComplete) && onCompleteCalls == old(onCompleteCalls) + 1 && timers == rest
    {
      var t := timers[i];
      timers := timers[..i] + timers[i + 1..];
      match t.action
      case MarkComplete =>
        isComplete := true;
        timers := timers + [Timer(OnCompleteDelay, CallOnComplete)];
      case CallOnComplete =>
        onCompleteCalls := onCompleteCalls + 1;
    }

    /** A mouse move over the container records the pointer relative to its top-left corner. */
    method MouseMove(clientX: real, clientY: real, hasContainer: bool, rectLeft: real, rectTop: real)
      modifies this`mouse
      ensures hasContainer ==> mouse == (clientX - rectLeft, clientY - rectTop)
      ensures !hasContainer ==> mouse == old(mouse)
    {
      if hasContainer {
        mouse := (clientX - rectLeft, clientY - rectTop);
      }
    }

    /** The unmount cleanup clears the intervals and the completion timer, but not the
        timeouts scheduled by the skip button or by the completion timer itself. */
    method Unmount()
      modifies this`intervalsActive, this`progressIntervalActive, this`completeTimerPending
      ensures !intervalsActive && !progressIntervalActive && !completeTimerPending
    {
      intervalsActive := false;
      progressIntervalActive := false;
      completeTimerPending := false;
    }

    /** Whether anything is rendered: a complete preloader renders `null`. */
    function Renders(): (r: bool)
      reads this
      ensures r <==> !isComplete
    {
      !isComplete
    }
  }

  /** Skipping, then letting the two timeouts fire in order, completes the preloader and calls
      `onComplete` exactly once, with the progress at 100. */
  method SkipRunsToCompletion(duration: real, width: real, height: real, rand: nat -> real)
    returns (p: PreloaderView)
    ensures p.progress == 100.0 && p.isComplete && !p.Renders()
    ensures p.onCompleteCalls == 1 && p.timers == []
  {
    p := new PreloaderView(duration, width, height, rand);
    p.Skip();
    p.TimerFires(0);
    p.TimerFires(0);
  }
}
