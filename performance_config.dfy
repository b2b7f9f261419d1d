/** The static performance configuration: device thresholds, per-level animation settings,
    scroll throttle rates, the three-level classifier and the feature switch lookup. */
module PerformanceConfig {

  datatype Level = Low | Medium | High

  /** The order low < medium < high. */
  function Rank(l: Level): nat {
    match l
    case Low => 0
    case Medium => 1
    case High => 2
  }

  const GiB: int := 1024 * 1024 * 1024

  datatype Thresholds = Thresholds(minFps: real, minCores: int, minMemory: int, isMobile: bool)

  const HighThresholds := Thresholds(50.0, 4, 4 * GiB, false)
  const MediumThresholds := Thresholds(30.0, 2, 2 * GiB, false)
  const LowThresholds := Thresholds(20.0, 1, 1 * GiB, true)

  datatype PreloaderSettings = PreloaderSettings(
    particleCount: nat, enable3D: bool, enableParticles: bool, enableMouseEffects: bool,
    animationDuration: real, enableBackdropFilter: bool)

  datatype ThreeJsSettings = ThreeJsSettings(
    particleCount: nat, objectCount: nat, enableShadows: bool, enablePostProcessing: bool,
    targetFps: nat, antialiasing: bool, highQualityMaterials: bool)

  datatype NavigationSettings = NavigationSettings(
    enableBackdropFilter: bool, enableParallax: bool, enableMouseEffects: bool, enable3D: bool,
    enableParticles: bool, animationDuration: real, scrollThrottle: nat)

  datatype GeneralSettings = GeneralSettings(
    enableParallax: bool, enableMouseEffects: bool, enable3D: bool, enableParticles: bool,
    enableBackdropFilter: bool, animationDuration: real, enableIntersectionObserver: bool,
    enableScrollAnimations: bool)

  datatype AnimationSettings = AnimationSettings(
    preloader: PreloaderSettings, threeJs: ThreeJsSettings,
    navigation: NavigationSettings, general: GeneralSettings)

  const HighAnimations := AnimationSettings(
    PreloaderSettings(50, true, true, true, 1.0, true),
    ThreeJsSettings(800, 6, true, true, 60, true, true),
    NavigationSettings(true, true, true, true, true, 0.7, 16),
    GeneralSettings(true, true, true, true, true, 0.8, true, true))

  const MediumAnimations := AnimationSettings(
    PreloaderSettings(25, false, true, false, 0.7, false),
    ThreeJsSettings(400, 4, false, false, 45, false, false),
    NavigationSettings(false, false, false, false, false, 0.5, 32),
    GeneralSettings(false, false, false, false, false, 0.6, true, false))

  const LowAnimations := AnimationSettings(
    PreloaderSettings(10, false, false, false, 0.5, false),
    ThreeJsSettings(100, 2, false, false, 30, false, false),
    NavigationSettings(false, false, false, false, false, 0.3, 64),
    GeneralSettings(false, false, false, false, false, 0.4, false, false))

  /** `scroll.throttleRates`, in milliseconds. */
  function ScrollThrottleRate(l: Level): nat {
    match l
    case High => 16
    case Medium => 32
    case Low => 64
  }

  /** `scroll.smoothScrolling`. */
  function SmoothScrolling(l: Level): bool {
    l == High
  }

  /** `getPerformanceLevel`: mobile first, then the high thresholds, then the medium ones;
      every comparison is inclusive. */
  function GetPerformanceLevel(fps: real, cores: int, memory: int, isMobile: bool): (r: Level)
    ensures isMobile ==> r == Low
    ensures (fps < MediumThresholds.minFps || cores < MediumThresholds.minCores
             || memory < MediumThresholds.minMemory) ==> r == Low
    ensures r == High <==> !isMobile && fps >= 50.0 && cores >= 4 && memory >= 4 * GiB
    ensures r == Medium ==> 30.0 <= fps && 2 <= cores && 2 * GiB <= memory
    ensures r == Low <==> isMobile || fps < 30.0 || cores < 2 || memory < 2 * GiB
  {
    if isMobile then Low
    else if fps >= HighThresholds.minFps && cores >= HighThresholds.minCores
            && memory >= HighThresholds.minMemory then High
    else if fps >= MediumThresholds.minFps && cores >= MediumThresholds.minCores
            && memory >= MediumThresholds.minMemory then Medium
    else Low
  }

  /** Raising the frame rate, the core count or the memory never lowers the level. */
  lemma LevelMonotone(fps: real, cores: int, memory: int, fps': real, cores': int, memory': int, isMobile: bool)
    requires fps <= fps' && cores <= cores' && memory <= memory'
    ensures Rank(GetPerformanceLevel(fps, cores, memory, isMobile))
            <= Rank(GetPerformanceLevel(fps', cores', memory', isMobile))
  {
  }

  /** The boundary cases of the inclusive thresholds. */
  lemma LevelBoundaries(cores: int, memory: int)
    requires cores >= 2 && memory >= 2 * GiB
    ensures GetPerformanceLevel(50.0, 4, 4 * GiB, false) == High
    ensures GetPerformanceLevel(49.0, cores, memory, false) == Medium
    ensures GetPerformanceLevel(30.0, cores, memory, false) == Medium
    ensures GetPerformanceLevel(29.0, cores, memory, false) == Low
  {
  }

  /** `getAnimationConfig`: the settings table for one level. */
  function GetAnimationConfig(l: Level): (r: AnimationSettings)
    ensures r.navigation.scrollThrottle == ScrollThrottleRate(l)
    ensures r.preloader.enable3D <==> l == High
    ensures r.navigation.enable3D <==> l == High
    ensures r.general.enable3D <==> l == High
  {
    match l
    case High => HighAnimations
    case Medium => MediumAnimations
    case Low => LowAnimations
  }

  /** The numeric knobs strictly decrease from high to medium to low. */
  lemma KnobsDecreaseWithLevel(a: Level, b: Level)
    requires Rank(a) < Rank(b)
    ensures GetAnimationConfig(a).preloader.particleCount < GetAnimationConfig(b).preloader.particleCount
    ensures GetAnimationConfig(a).threeJs.particleCount < GetAnimationConfig(b).threeJs.particleCount
    ensures GetAnimationConfig(a).threeJs.objectCount < GetAnimationConfig(b).threeJs.objectCount
    ensures GetAnimationConfig(a).threeJs.targetFps < GetAnimationConfig(b).threeJs.targetFps
    ensures ScrollThrottleRate(b) < ScrollThrottleRate(a)
  {
  }

  /** The keys of the `general` settings record. */
  datatype GeneralFeature =
    | EnableParallax | EnableMouseEffects | Enable3D | EnableParticles | EnableBackdropFilter
    | AnimationDuration | EnableIntersectionObserver | EnableScrollAnimations

  /** `Boolean(x)` of a JavaScript number (the values here are never NaN). */
  function NumberTruthy(x: real): bool {
    x != 0.0
  }

  /** `shouldEnableFeature`: the truthiness of one `general` setting. */
  function ShouldEnableFeature(f: GeneralFeature, l: Level): (r: bool)
    ensures l == High ==> r
    ensures l == Medium ==> (r <==> f == AnimationDuration || f == EnableIntersectionObserver)
    ensures l == Low ==> (r <==> f == AnimationDuration)
    ensures r && f != AnimationDuration && f != EnableIntersectionObserver ==> l == High
  {
    var g := GetAnimationConfig(l).general;
    match f
    case EnableParallax => g.enableParallax
    case EnableMouseEffects => g.enableMouseEffects
    case Enable3D => g.enable3D
    case EnableParticles => g.enableParticles
    case EnableBackdropFilter => g.enableBackdropFilter
    case AnimationDuration => NumberTruthy(g.animationDuration)
    case EnableIntersectionObserver => g.enableIntersectionObserver
    case EnableScrollAnimations => g.enableScrollAnimations
  }

  /** A feature enabled at some level stays enabled at every higher level. */
  lemma FeatureMonotone(f: GeneralFeature, a: Level, b: Level)
    requires Rank(a) <= Rank(b) && ShouldEnableFeature(f, a)
    ensures ShouldEnableFeature(f, b)
  {
  }
}
