/** The services hero section: a configuration record derived from the device profile, the
    request for the 3D scene, the parallax switch and the typewriter heading. */
module OptimizedServicesHero {

  datatype HeroConfig = HeroConfig(
    enable3D: bool, enableParticles: bool, enableParallax: bool, enableMouseEffects: bool,
    animationDuration: real, enableBackdropFilter: bool)

  /** The `config` record of the component. */
  function ConfigFor(isHighPerformance: bool, isMobile: bool, supportsWebGL: bool): (c: HeroConfig)
    ensures c.enable3D <==> isHighPerformance && supportsWebGL && !isMobile
    ensures c.enableParticles == isHighPerformance && c.enableParallax == isHighPerformance
    ensures c.enableMouseEffects == isHighPerformance && c.enableBackdropFilter == isHighPerformance
    ensures c.animationDuration == (if isHighPerformance then 0.8 else 0.5)
  {
    HeroConfig(
      isHighPerformance && supportsWebGL && !isMobile,
      isHighPerformance, isHighPerformance, isHighPerformance,
      if isHighPerformance then 0.8 else 0.5,
      isHighPerformance)
  }

  /** Whether the scene hook is asked to run: only for a visible section with 3D enabled, and
      so never without WebGL or on a mobile device. */
  function SceneRequested(isVisible: bool, isHighPerformance: bool, isMobile: bool, supportsWebGL: bool): (r: bool)
    ensures r ==> isVisible && supportsWebGL && !isMobile && isHighPerformance
    ensures isVisible && ConfigFor(isHighPerformance, isMobile, supportsWebGL).enable3D ==> r
  {
    isVisible && ConfigFor(isHighPerformance, isMobile, supportsWebGL).enable3D
  }

  /** The output range of the parallax transform for the scroll progress range [0, 1]. */
  function ParallaxRange(c: HeroConfig): (r: (string, string))
    ensures r.0 == "0%"
    ensures !c.enableParallax ==> r.1 == r.0
    ensures c.enableParallax ==> r.1 == "50%"
  {
    if c.enableParallax then ("0%", "50%") else ("0%", "0%")
  }

  // ---------------------------------------------------------------------------
  // Typewriter

  const FullText: string := "Professional Services"

  datatype TypingState = TypingState(typedText: string, currentIndex: nat, isTyping: bool)

  /** The shown text is the first `currentIndex` characters of the heading. */
  predicate TypingInvariant(s: TypingState) {
    s.currentIndex <= |FullText| && s.typedText == FullText[..s.currentIndex]
  }

  /** The 100 ms typing timeout: one more character. */
  function TypeStep(s: TypingState): (t: TypingState)
    requires s.currentIndex < |FullText|
    ensures t.currentIndex == s.currentIndex + 1 && t.isTyping == s.isTyping
    ensures TypingInvariant(t)
  {
    TypingState(FullText[..s.currentIndex + 1], s.currentIndex + 1, s.isTyping)
  }

  /** The 2000 ms reset timeout: back to the empty heading, typing again. */
  const Reset := TypingState("", 0, true)

  /** `n` typing steps after a reset show the first `n` characters; after 21 the whole heading. */
  function TypeSteps(n: nat): (r: TypingState)
    requires n <= |FullText|
    ensures r == TypingState(FullText[..n], n, true)
    ensures n == 21 ==> r.typedText == FullText
  {
    if n == 0 then Reset else TypeStep(TypeSteps(n - 1))
  }

  /** The typewriter's state and its pending timeouts. */
  class Typewriter {
    var state: TypingState
    /** The 100 ms typing timeout of the current effect run (cleared by the effect's cleanup). */
    var typeTimerPending: bool
    /** Reset timeouts; the effect never clears them, so several may be pending. */
    var pendingResets: nat

    predicate Valid()
      reads this
    {
      TypingInvariant(state) && (typeTimerPending ==> state.currentIndex < |FullText|)
    }

    constructor ()
      ensures Valid() && state == Reset && !typeTimerPending && pendingResets == 0
    {
      state := Reset;
      typeTimerPending := false;
      pendingResets := 0;
    }

    /** The typing effect after a render that changed the index or the typing flag: its
        cleanup clears the previous typing timeout, then it either schedules the next
        character, or at the end of the heading stops typing and schedules a reset. */
    method RunEffect()
      requires Valid()
      modifies this
      ensures Valid()
      ensures typeTimerPending == (old(state).isTyping && old(state).currentIndex < |FullText|)
      ensures old(state).currentIndex >= |FullText| ==>
                state == old(state).(isTyping := false) && pendingResets == old(pendingResets) + 1
      ensures old(state).currentIndex < |FullText| ==>
                state == old(state) && pendingResets == old(pendingResets)
    {
      typeTimerPending := false;
      if state.isTyping && state.currentIndex < |FullText| {
        typeTimerPending := true;
      } else if state.currentIndex >= |FullText| {
        state := state.(isTyping := false);
        pendingResets := pendingResets + 1;
      }
    }

    method TypeTimerFires()
      requires Valid() && typeTimerPending
      modifies this`state, this`typeTimerPending
      ensures Valid() && !typeTimerPending
      ensures state == TypeStep(old(state))
    {
      state := TypeStep(state);
      typeTimerPending := false;
    }

    /** A reset timeout fires; further pending resets set the same state again. */
    method ResetTimerFires()
      requires Valid() && pendingResets > 0
      modifies this`state, this`pendingResets
      ensures Valid() && state == Reset && pendingResets == old(pendingResets) - 1
    {
      state := Reset;
      pendingResets := pendingResets - 1;
    }
  }
}
