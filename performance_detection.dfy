/** The device profiler hook: the mobile user-agent test, the boolean performance classification,
    the frame-rate sampler, and the throttle, debounce and viewport utilities. */
module PerformanceDetection {
  import opened JsValues

  // ---------------------------------------------------------------------------
  // User-agent test

  /** The alternatives of the mobile user-agent pattern. */
  const MobileTokens: seq<string> :=
    ["Android", "webOS", "iPhone", "iPad", "iPod", "BlackBerry", "IEMobile", "Opera Mini"]

  /** Case folding of a pattern compiled with `i` and without `u`: characters are compared after
      upper-casing, and no non-ASCII character ever folds onto an ASCII one, so for the ASCII
      tokens above only the ASCII letters need folding. */
  function Fold(c: char): char {
    if 'a' <= c <= 'z' then (c as int - 32) as char else c
  }

  /** `tok` occurs in `s` at position `i`, compared case-insensitively. */
  predicate MatchesAt(s: string, tok: string, i: int) {
    0 <= i && i + |tok| <= |s| && forall k :: 0 <= k < |tok| ==> Fold(s[i + k]) == Fold(tok[k])
  }

  /** Scans `s` from position `from` for a case-insensitive occurrence of `tok`. */
  function ContainsFrom(s: string, tok: string, from: nat): (r: bool)
    requires from <= |s|
    ensures r <==> exists i :: from <= i && MatchesAt(s, tok, i)
    decreases |s| - from
  {
    if from + |tok| > |s| then false
    else if forall k :: 0 <= k < |tok| ==> Fold(s[from + k]) == Fold(tok[k]) then
      assert MatchesAt(s, tok, from);
      true
    else
      var r := ContainsFrom(s, tok, from + 1);
      assert forall i :: from <= i && MatchesAt(s, tok, i) ==> i == from || from + 1 <= i;
      r
  }

  /** `/Android|webOS|iPhone|iPad|iPod|BlackBerry|IEMobile|Opera Mini/i.test(userAgent)`. */
  function IsMobileUserAgent(ua: string): (r: bool)
    ensures r <==> exists t, i :: t in MobileTokens && MatchesAt(ua, t, i)
  {
    exists t | t in MobileTokens :: ContainsFrom(ua, t, 0)
  }

  function FoldAll(s: string): (r: string)
    ensures |r| == |s| && forall k :: 0 <= k < |s| ==> r[k] == Fold(s[k])
  {
    seq(|s|, k requires 0 <= k < |s| => Fold(s[k]))
  }

  /** Changing the case of the letters of a user agent never changes the verdict. */
  lemma {:induction false} MobileTestIgnoresCase(ua: string)
    ensures IsMobileUserAgent(FoldAll(ua)) == IsMobileUserAgent(ua)
  {
    var u := FoldAll(ua);
    forall t, i | t in MobileTokens
      ensures MatchesAt(u, t, i) <==> MatchesAt(ua, t, i)
    {
      assert forall c :: Fold(Fold(c)) == Fold(c);
    }
  }

  lemma MobileExamples()
    ensures IsMobileUserAgent("(iPhone; CPU)")
    ensures IsMobileUserAgent("opera mini/9")
  {
    assert MobileTokens[2] == "iPhone" && MatchesAt("(iPhone; CPU)", "iPhone", 1);
    assert MobileTokens[7] == "Opera Mini" && MatchesAt("opera mini/9", "Opera Mini", 0);
  }

  // ---------------------------------------------------------------------------
  // Detection

  datatype MemoryInfo = MemoryInfo(totalJsHeapSize: int, usedJsHeapSize: int, jsHeapSizeLimit: int)

  /** The outcome of probing `navigator.getBattery`. */
  datatype BatteryProbe = NoBatteryApi | BatteryThrows | BatteryLevel(level: real)

  datatype Profile = Profile(
    isHighPerformance: bool, isMobile: bool, supportsWebGL: bool,
    supportsBackdropFilter: bool, fps: int, memoryInfo: Option<MemoryInfo>)

  /** The state published before detection completes. */
  const InitialProfile := Profile(true, false, false, false, 60, None)

  /** `navigator.hardwareConcurrency || 4`: a missing or zero count reads as four cores. */
  function EffectiveCores(hardwareConcurrency: Option<nat>): (r: nat)
    ensures r > 0
    ensures hardwareConcurrency.Some? && hardwareConcurrency.value != 0 ==> r == hardwareConcurrency.value
  {
    if hardwareConcurrency.None? || hardwareConcurrency.value == 0 then 4 else hardwareConcurrency.value
  }

  predicate BatteryLow(b: BatteryProbe) {
    b.BatteryLevel? && b.level < 0.2
  }

  /** `Math.round`: halves round toward positive infinity. */
  function Round(x: real): (r: int)
    ensures x - 0.5 < r as real <= x + 0.5
  {
    (x + 0.5).Floor
  }

  /** The variables the frame-rate sampler closes over. */
  datatype SamplerState = SamplerState(frameCount: nat, lastTime: real, fps: int, isHighPerformance: bool)

  /** One animation-frame callback of `measureFPS` at time `now`. */
  function SampleFrame(s: SamplerState, now: real): (r: SamplerState)
    ensures r.isHighPerformance ==> s.isHighPerformance
    ensures now - s.lastTime >= 1000.0 ==>
              && r.frameCount == 0 && r.lastTime == now
              && r.fps as real - 0.5 <= ((s.frameCount + 1) * 1000) as real / (now - s.lastTime) < r.fps as real + 0.5
              && (r.isHighPerformance <==> s.isHighPerformance && r.fps >= 30)
    ensures now - s.lastTime < 1000.0 ==>
              r == s.(frameCount := s.frameCount + 1)
  {
    var frameCount := s.frameCount + 1;
    if now - s.lastTime >= 1000.0 then
      var fps := Round((frameCount * 1000) as real / (now - s.lastTime));
      SamplerState(0, now, fps, if fps < 30 then false else s.isHighPerformance)
    else
      s.(frameCount := frameCount)
  }

  /** 55 frames, the last of them one second after the window opened, give 55 frames per second. */
  lemma SamplerExample(t: real)
    ensures SampleFrame(SamplerState(54, t, 60, true), t + 1000.0) == SamplerState(0, t + 1000.0, 55, true)
  {
    assert ((54 + 1) * 1000) as real / (t + 1000.0 - t) == 55.0;
  }

  /** The profile hook. `profile` is what consumers read; `sampler` holds the variables of
      `detectPerformance` that the frame-rate sampler keeps updating after publication. */
  class PerformanceDetector {
    var profile: Profile
    var sampler: SamplerState
    var sampling: bool

    constructor ()
      ensures profile == InitialProfile && !sampling
    {
      profile := InitialProfile;
      sampler := SamplerState(0, 0.0, 60, true);
      sampling := false;
    }

    /** `detectPerformance`, with each browser probe given as its result. The local `fps` is
        still 60 when the profile is classified and published, so the `fps < 30` test of the
        classification never fires; the sampler starts only afterwards. */
    method Detect(ua: string, webGLContext: bool, backdropSupported: bool,
                  hardwareConcurrency: Option<nat>, memory: Option<MemoryInfo>,
                  battery: BatteryProbe, now: real)
      modifies this
      ensures profile.isHighPerformance <==>
                !IsMobileUserAgent(ua) && EffectiveCores(hardwareConcurrency) >= 4 && !BatteryLow(battery)
      ensures profile.isMobile == IsMobileUserAgent(ua)
      ensures profile.supportsWebGL == webGLContext && profile.supportsBackdropFilter == backdropSupported
      ensures profile.fps == 60 && profile.memoryInfo == memory
      ensures sampling && sampler == SamplerState(0, now, 60, profile.isHighPerformance)
    {
      var isMobile := IsMobileUserAgent(ua);
      var fps := 60;
      var isHighPerformance := true;
      var frameCount := 0;
      var lastTime := now;
      var cores := EffectiveCores(hardwareConcurrency);
      if isMobile || fps < 30 || cores < 4 {
        isHighPerformance := false;
      }
      match battery {
        case BatteryLevel(level) =>
          if level < 0.2 {
            isHighPerformance := false;
          }
        case NoBatteryApi =>
        case BatteryThrows =>
      }
      profile := Profile(isHighPerformance, isMobile, webGLContext, backdropSupported, fps, memory);
      sampler := SamplerState(frameCount, lastTime, fps, isHighPerformance);
      sampling := true;
    }

    /** An animation frame reaching `measureFPS`: the sampler advances, and nothing it computes
        is ever published. */
    method OnAnimationFrame(now: real)
      modifies this
      ensures sampler == if old(sampling) then SampleFrame(old(sampler), now) else old(sampler)
      ensures profile == old(profile) && sampling == old(sampling)
    {
      if sampling {
        sampler := SampleFrame(sampler, now);
      }
    }
  }

  // ---------------------------------------------------------------------------
  // Throttle and debounce, with their timers as explicit events

  /** `performanceUtils.throttle(func, limit)`: `calls` records the arguments `func` received. */
  class Throttle<A> {
    const limit: real
    var inThrottle: bool
    var calls: seq<A>

    constructor (limit: real)
      ensures this.limit == limit && !inThrottle && calls == []
    {
      this.limit := limit;
      inThrottle := false;
      calls := [];
    }

    /** A call of the throttled function: forwarded outside the window, dropped inside it. */
    method Call(a: A) returns (invoked: bool)
      modifies this`inThrottle, this`calls
      ensures invoked == !old(inThrottle) && inThrottle
      ensures calls == if invoked then old(calls) + [a] else old(calls)
    {
      invoked := !inThrottle;
      if invoked {
        calls := calls + [a];
        inThrottle := true;
      }
    }

    /** The `limit` timer set by the last forwarded call expires. */
    method WindowCloses()
      modifies this`inThrottle
      ensures !inThrottle
    {
      inThrottle := false;
    }
  }

  /** Calls made while the window is open are dropped, not deferred. */
  method ThrottleBurst<A>(t: Throttle<A>, args: seq<A>)
    requires |args| > 0
    modifies t`inThrottle, t`calls
    ensures t.calls == old(t.calls) + (if old(t.inThrottle) then [] else [args[0]])
    ensures t.inThrottle
  {
    var first := t.Call(args[0]);
    var i := 1;
    while i < |args|
      invariant 1 <= i <= |args| && t.inThrottle
      invariant t.calls == old(t.calls) + (if old(t.inThrottle) then [] else [args[0]])
    {
      var dropped := t.Call(args[i]);
      i := i + 1;
    }
  }

  /** `performanceUtils.debounce(func, wait)`: `pending` holds the arguments of the one
      scheduled timeout, `calls` the arguments `func` received. */
  class Debounce<A> {
    const wait: real
    var pending: Option<A>
    var calls: seq<A>

    constructor (wait: real)
      ensures this.wait == wait && pending == None && calls == []
    {
      this.wait := wait;
      pending := None;
      calls := [];
    }

    /** A call cancels the pending timeout and schedules a new one with its own arguments. */
    method Call(a: A)
      modifies this`pending
      ensures pending == Some(a)
    {
      pending := Some(a);
    }

    /** The pending timeout expires after `wait` milliseconds without a newer call. */
    method TimeoutFires()
      modifies this`pending, this`calls
      ensures pending == None
      ensures calls == if old(pending).Some? then old(calls) + [old(pending).value] else old(calls)
    {
      if pending.Some? {
        calls := calls + [pending.value];
        pending := None;
      }
    }
  }

  /** A burst of calls followed by a quiet period runs `func` once, with the last arguments. */
  method DebounceBurst<A>(d: Debounce<A>, args: seq<A>)
    requires |args| > 0
    modifies d`pending, d`calls
    ensures d.calls == old(d.calls) + [args[|args| - 1]] && d.pending == None
  {
    var i := 0;
    while i < |args|
      invariant 0 <= i <= |args| && d.calls == old(d.calls)
      invariant i > 0 ==> d.pending == Some(args[i - 1])
    {
      d.Call(args[i]);
      i := i + 1;
    }
    d.TimeoutFires();
  }

  // ---------------------------------------------------------------------------
  // Viewport test and observer options

  datatype Rect = Rect(top: real, left: real, bottom: real, right: real)

  /** `window.innerHeight || document.documentElement.clientHeight` (and the same for widths). */
  function ViewportExtent(inner: real, client: real): (r: real)
    ensures inner != 0.0 ==> r == inner
    ensures inner == 0.0 ==> r == client
  {
    if inner != 0.0 then inner else client
  }

  /** `performanceUtils.isInViewport`: the whole rectangle lies inside the viewport, measured
      with the inner size and, where that is 0, the document element's client size. */
  function IsInViewport(rect: Rect, innerHeight: real, innerWidth: real,
                        clientHeight: real, clientWidth: real): (r: bool)
    ensures r <==> && 0.0 <= rect.top && 0.0 <= rect.left
                   && rect.bottom <= (if innerHeight != 0.0 then innerHeight else clientHeight)
                   && rect.right <= (if innerWidth != 0.0 then innerWidth else clientWidth)
  {
    rect.top >= 0.0 && rect.left >= 0.0
    && rect.bottom <= ViewportExtent(innerHeight, clientHeight)
    && rect.right <= ViewportExtent(innerWidth, clientWidth)
  }

  datatype ObserverOptions = ObserverOptions(threshold: Option<real>, rootMargin: Option<string>)

  /** `createIntersectionObserver`: `{threshold: 0.1, rootMargin: '50px', ...options}`. */
  function ObserverSettings(options: ObserverOptions): (r: (real, string))
    ensures r.0 == if options.threshold.Some? then options.threshold.value else 0.1
    ensures r.1 == if options.rootMargin.Some? then options.rootMargin.value else "50px"
  {
    (match options.threshold case Some(t) => t case None => 0.1,
     match options.rootMargin case Some(m) => m case None => "50px")
  }
}
