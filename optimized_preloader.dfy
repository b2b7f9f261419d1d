/** The performance-aware preloader: a configuration record derived from the device profile,
    which gates the particle field and the mouse tracking and sets the interval rates, plus the
    same progress, phase and completion logic as the full preloader (without a skip button). */
module OptimizedPreloader {
  import opened JsValues
  import opened LoadingTicks
  import PerformanceDetection

  datatype PreloaderConfig = PreloaderConfig(
    particleCount: nat, enable3D: bool, enableParticles: bool, enableMouseEffects: bool,
    animationDuration: real, enableBackdropFilter: bool)

  /** The `config` record of the component. */
  function ConfigFor(isHighPerformance: bool, isMobile: bool, supportsBackdropFilter: bool): (c: PreloaderConfig)
    ensures c.enable3D ==> isHighPerformance && !isMobile
    ensures c.enableBackdropFilter ==> supportsBackdropFilter
    ensures c.particleCount == (if isHighPerformance then 50 else 20)
    ensures c.enableParticles == isHighPerformance && c.enableMouseEffects == isHighPerformance
    ensures c.enableBackdropFilter ==> c.enableParticles
  {
    PreloaderConfig(
      if isHighPerformance then 50 else 20,
      isHighPerformance && !isMobile,
      isHighPerformance,
      isHighPerformance,
      if isHighPerformance then 1.0 else 0.5,
      supportsBackdropFilter && isHighPerformance)
  }

  /** The interval rates and particle constants that depend on the profile. */
  function ParticleSpeed(isHighPerformance: bool): real { if isHighPerformance then 2.0 else 1.0 }
  function ParticleDecay(isHighPerformance: bool): real { if isHighPerformance then 0.5 else 1.0 }
  function ProgressSpan(isHighPerformance: bool): real { if isHighPerformance then 8.0 else 12.0 }
  function ParticlePeriod(isHighPerformance: bool): nat { if isHighPerformance then 50 else 100 }
  function ProgressPeriod(isHighPerformance: bool): nat { if isHighPerformance then 100 else 150 }
  function PhasePeriod(isHighPerformance: bool): nat { if isHighPerformance then 800 else 1200 }

  const OnCompleteDelay: real := 1500.0

  /** Starting from 0 and whatever the draws, the progress stays below 110 on a fast device and
      below 114 on a slow one. */
  lemma ProgressLimit(isHighPerformance: bool, rs: seq<real>)
    requires UnitDraws(rs)
    ensures 0.0 <= RunProgress(0.0, rs, ProgressSpan(isHighPerformance))
            < (if isHighPerformance then 110.0 else 114.0)
  {
    ProgressBounded(0.0, rs, ProgressSpan(isHighPerformance));
  }

  /** The profile `usePerformanceDetection` publishes on the first render, before detection. */
  const InitialIsHighPerformance := PerformanceDetection.InitialProfile.isHighPerformance
  const InitialIsMobile := PerformanceDetection.InitialProfile.isMobile
  const InitialSupportsBackdropFilter := PerformanceDetection.InitialProfile.supportsBackdropFilter

  class OptimizedPreloaderView {
    var isHighPerformance: bool
    var config: PreloaderConfig
    const duration: real
    var progress: real
    var isComplete: bool
    var currentPhase: nat
    var particles: seq<Particle>
    var capturedLength: nat
    var particleIntervalActive: bool
    var progressIntervalActive: bool
    var phaseIntervalActive: bool
    var completeTimerPending: bool
    /** When the pending completion timer fires, counted from mount. */
    var completeDueAt: real
    var onCompletePending: bool
    var onCompleteCalls: nat
    var mouse: (real, real)

    predicate Valid()
      reads this
    {
      && 0.0 <= progress < 100.0 + ProgressSpan(false) + 2.0
      && currentPhase < PhaseCount
      && (particleIntervalActive ==> config.enableParticles)
      && config.enableParticles == isHighPerformance
      && config.particleCount == (if isHighPerformance then 50 else 20)
    }

    /** The first render and its effects, under the optimistic profile the detection hook
        publishes before it has measured anything: particles on, 50 of them, and the progress,
        phase and completion timers started with the fast rates. */
    constructor (duration: real, width: real, height: real, rand: nat -> real)
      ensures Valid()
      ensures isHighPerformance && this.duration == duration
      ensures config == ConfigFor(InitialIsHighPerformance, InitialIsMobile, InitialSupportsBackdropFilter)
      ensures config.enableParticles && config.particleCount == 50 && !config.enableBackdropFilter
      ensures progress == 0.0 && !isComplete && currentPhase == 0 && mouse == (0.0, 0.0)
      ensures particleIntervalActive && capturedLength == 0
      ensures particles == Generate(50, ParticleSpeed(true), width, height, rand)
      ensures progressIntervalActive && phaseIntervalActive && completeTimerPending && completeDueAt == duration
      ensures !onCompletePending && onCompleteCalls == 0
    {
      isHighPerformance := InitialIsHighPerformance;
      config := ConfigFor(InitialIsHighPerformance, InitialIsMobile, InitialSupportsBackdropFilter);
      this.duration := duration;
      progress := 0.0;
      isComplete := false;
      currentPhase := 0;
      mouse := (0.0, 0.0);
      capturedLength := 0;
      particles := Generate(50, ParticleSpeed(true), width, height, rand);
      particleIntervalActive := true;
      progressIntervalActive := true;
      phaseIntervalActive := true;
      completeTimerPending := true;
      completeDueAt := duration;
      onCompletePending := false;
      onCompleteCalls := 0;
    }

    /** The re-render at time `now` after detection published a new profile. The config is
        recomputed; an effect re-runs (cleanup first) only when one of its dependencies changed.
        The particle effect's cleanup clears its interval, and with particles now disabled it
        returns early, so the particles generated earlier stay. The timer effect's cleanup
        clears all three timers and starts them again, so completion moves to `now + duration`. */
    method ProfileChanged(isHighPerformance': bool, isMobile': bool, supportsBackdropFilter': bool,
                          now: real, width: real, height: real, rand: nat -> real)
      requires Valid()
      modifies this`isHighPerformance, this`config, this`particles, this`capturedLength
      modifies this`particleIntervalActive, this`progressIntervalActive, this`phaseIntervalActive
      modifies this`completeTimerPending, this`completeDueAt
      ensures Valid()
      ensures isHighPerformance == isHighPerformance'
      ensures config == ConfigFor(isHighPerformance', isMobile', supportsBackdropFilter')
      ensures progress == old(progress) && isComplete == old(isComplete) && currentPhase == old(currentPhase)
      ensures mouse == old(mouse) && onCompletePending == old(onCompletePending)
      ensures onCompleteCalls == old(onCompleteCalls)
      ensures isHighPerformance' == old(isHighPerformance) ==>
                && particles == old(particles) && capturedLength == old(capturedLength)
                && particleIntervalActive == old(particleIntervalActive)
                && progressIntervalActive == old(progressIntervalActive)
                && phaseIntervalActive == old(phaseIntervalActive)
                && completeTimerPending == old(completeTimerPending) && completeDueAt == old(completeDueAt)
      ensures isHighPerformance' != old(isHighPerformance) ==>
                && progressIntervalActive && phaseIntervalActive
                && completeTimerPending && completeDueAt == now + duration
                && particleIntervalActive == isHighPerformance'
                && (isHighPerformance' ==>
                      particles == Generate(config.particleCount, ParticleSpeed(isHighPerformance'), width, height, rand)
                      && capturedLength == |old(particles)|)
                && (!isHighPerformance' ==>
                      particles == old(particles) && capturedLength == old(capturedLength))
    {
      var next := ConfigFor(isHighPerformance', isMobile', supportsBackdropFilter');
      var particleDepsChanged := next.enableParticles != config.enableParticles
                                 || next.particleCount != config.particleCount
                                 || isHighPerformance' != isHighPerformance;
      var timerDepsChanged := isHighPerformance' != isHighPerformance;
      isHighPerformance := isHighPerformance';
      config := next;
      if particleDepsChanged {
        ParticleEffectRestarts(width, height, rand);
      }
      if timerDepsChanged {
        TimerEffectRestarts(now);
      }
    }

    /** The particle effect's cleanup clears its interval; the effect then returns at once when
        particles are disabled, and otherwise regenerates them and installs a new interval. */
    method ParticleEffectRestarts(width: real, height: real, rand: nat -> real)
      modifies this`particles, this`capturedLength, this`particleIntervalActive
      ensures particleIntervalActive == config.enableParticles
      ensures config.enableParticles ==>
                && capturedLength == |old(particles)|
                && particles == Generate(config.particleCount, ParticleSpeed(isHighPerformance), width, height, rand)
      ensures !config.enableParticles ==> particles == old(particles) && capturedLength == old(capturedLength)
    {
      particleIntervalActive := false;
      if config.enableParticles {
        capturedLength := |particles|;
        particles := Generate(config.particleCount, ParticleSpeed(isHighPerformance), width, height, rand);
        particleIntervalActive := true;
      }
    }

    /** The timer effect's cleanup clears the progress and phase intervals and the completion
        timeout; the effect starts all three again, the timeout `duration` from `now`. */
    method TimerEffectRestarts(now: real)
      modifies this`progressIntervalActive, this`phaseIntervalActive, this`completeTimerPending, this`completeDueAt
      ensures progressIntervalActive && phaseIntervalActive
      ensures completeTimerPending && completeDueAt == now + duration
    {
      progressIntervalActive := true;
      phaseIntervalActive := true;
      completeTimerPending := true;
      completeDueAt := now + duration;
    }

    /** The particle effect re-runs after a render in which `particles.length` changed; with
        particles disabled it returns at once. */
    method ParticleEffectRuns(width: real, height: real, rand: nat -> real)
      requires Valid()
      modifies this`particles, this`capturedLength, this`particleIntervalActive
      ensures Valid()
      ensures !config.enableParticles ==> unchanged(this)
      ensures config.enableParticles ==>
                && capturedLength == |old(particles)| && particleIntervalActive
                && particles == Generate(config.particleCount, ParticleSpeed(isHighPerformance), width, height, rand)
    {
      if !config.enableParticles {
        return;
      }
      capturedLength := |particles|;
      particles := Generate(config.particleCount, ParticleSpeed(isHighPerformance), width, height, rand);
      particleIntervalActive := true;
    }

    /** The particle interval fires: tick, or regenerate when the captured length is below half
        the particle count. */
    method ParticleIntervalFires(width: real, height: real, rand: nat -> real)
      requires Valid() && particleIntervalActive
      modifies this`particles
      ensures Valid()
      ensures particles == ParticleUpdate(old(particles), ParticleDecay(isHighPerformance), capturedLength,
                                          config.particleCount as real / 2.0,
                                          Generate(config.particleCount, ParticleSpeed(isHighPerformance),
                                                   width, height, rand))
    {
      var regenerated := Generate(config.particleCount, ParticleSpeed(isHighPerformance), width, height, rand);
      particles := ParticleUpdate(particles, ParticleDecay(isHighPerformance), capturedLength,
                                  config.particleCount as real / 2.0, regenerated);
    }

    /** The progress interval fires with the draw `r`; at 100 it clears itself. */
    method ProgressIntervalFires(r: real)
      requires Valid() && progressIntervalActive && 0.0 <= r < 1.0
      modifies this`progress, this`progressIntervalActive
      ensures Valid()
      ensures progress == NextProgress(old(progress), r, ProgressSpan(isHighPerformance))
      ensures progressIntervalActive == (old(progress) < 100.0)
    {
      if progress >= 100.0 {
        progressIntervalActive := false;
      }
      progress := NextProgress(progress, r, ProgressSpan(isHighPerformance));
    }

    method PhaseIntervalFires()
      requires Valid() && phaseIntervalActive
      modifies this`currentPhase
      ensures Valid()
      ensures currentPhase == NextPhase(old(currentPhase))
    {
      currentPhase := NextPhase(currentPhase);
    }

    /** The completion timer fires after `duration`: complete, and `onComplete` 1500 ms later. */
    method CompleteTimerFires()
      requires completeTimerPending
      modifies this`isComplete, this`completeTimerPending, this`onCompletePending
      ensures isComplete && !completeTimerPending && onCompletePending
    {
      isComplete := true;
      completeTimerPending := false;
      onCompletePending := true;
    }

    method OnCompleteTimerFires()
      requires onCompletePending
      modifies this`onCompletePending, this`onCompleteCalls
      ensures !onCompletePending && onCompleteCalls == old(onCompleteCalls) + 1
    {
      onCompletePending := false;
      onCompleteCalls := onCompleteCalls + 1;
    }

    /** A mouse move is ignored unless mouse effects are enabled. */
    method MouseMove(clientX: real, clientY: real, hasContainer: bool, rectLeft: real, rectTop: real)
      modifies this`mouse
      ensures config.enableMouseEffects && hasContainer ==> mouse == (clientX - rectLeft, clientY - rectTop)
      ensures !(config.enableMouseEffects && hasContainer) ==> mouse == old(mouse)
    {
      if !config.enableMouseEffects {
        return;
      }
      if hasContainer {
        mouse := (clientX - rectLeft, clientY - rectTop);
      }
    }

    /** The unmount cleanup clears the intervals and the completion timer; an `onComplete`
        timeout already scheduled is not cleared. */
    method Unmount()
      modifies this`particleIntervalActive, this`progressIntervalActive, this`phaseIntervalActive,
               this`completeTimerPending
      ensures !particleIntervalActive && !progressIntervalActive && !phaseIntervalActive && !completeTimerPending
    {
      particleIntervalActive := false;
      progressIntervalActive := false;
      phaseIntervalActive := false;
      completeTimerPending := false;
    }

    /** Whether anything is rendered: a complete preloader renders `null`. */
    function Renders(): (r: bool)
      reads this
      ensures r <==> !isComplete
    {
      !isComplete
    }
  }

  /** On a slow device the first render still generates the optimistic 50 particles; when
      detection flips the profile, particles become disabled but the particle effect returns
      before touching the list, so those 50 particles stay, and completion is pushed back to a
      full `duration` after the flip. */
  method SlowDeviceKeepsOptimisticParticles(isMobile: bool, supportsBackdropFilter: bool, duration: real,
                                            detectedAt: real, width: real, height: real, rand: nat -> real)
    returns (p: OptimizedPreloaderView)
    ensures !p.isHighPerformance && !p.config.enableParticles && !p.particleIntervalActive
    ensures p.particles == Generate(50, ParticleSpeed(true), width, height, rand) && |p.particles| == 50
    ensures p.completeTimerPending && p.completeDueAt == detectedAt + duration
  {
    p := new OptimizedPreloaderView(duration, width, height, rand);
    p.ProfileChanged(false, isMobile, supportsBackdropFilter, detectedAt, width, height, rand);
  }
}
