/** The optimised Three.js scene hook: the two scene configurations, the frame-limited render
    loop, the initialisation guards and buffer filling, and the cleanup. The Three.js objects
    themselves are represented only by what the hook decides about them. */
module OptimizedThreeScene {
  import opened JsValues

  datatype SceneConfig = SceneConfig(
    particleCount: nat, objectCount: nat, enableShadows: bool, enablePostProcessing: bool, targetFps: nat)

  const ReducedScene := SceneConfig(200, 3, false, false, 30)
  const FullScene := SceneConfig(800, 6, true, true, 60)

  /** `getSceneConfig`: the reduced scene on a low-performance or mobile device. */
  function GetSceneConfig(isHighPerformance: bool, isMobile: bool): (r: SceneConfig)
    ensures r == ReducedScene <==> !isHighPerformance || isMobile
    ensures r == FullScene <==> isHighPerformance && !isMobile
    ensures r.targetFps > 0 && r.objectCount > 0
  {
    if !isHighPerformance || isMobile then ReducedScene else FullScene
  }

  /** `1000 / config.targetFPS`: the least time between two rendered frames, in milliseconds. */
  function FrameInterval(c: SceneConfig): real
    requires c.targetFps > 0
  {
    1000.0 / c.targetFps as real
  }

  /** The times among the frame callbacks `ts` at which a frame is due, the last due frame
      having been at `last`. */
  function DueTimes(last: real, ts: seq<real>, interval: real): seq<real>
    decreases |ts|
  {
    if ts == [] then []
    else if ts[0] - last >= interval then [ts[0]] + DueTimes(ts[0], ts[1..], interval)
    else DueTimes(last, ts[1..], interval)
  }

  /** The first due frame comes at least one interval after `last`. */
  lemma {:induction false} DueTimesFirst(last: real, ts: seq<real>, interval: real)
    ensures var r := DueTimes(last, ts, interval); |r| > 0 ==> r[0] - last >= interval
    decreases |ts|
  {
    if ts != [] && ts[0] - last < interval {
      DueTimesFirst(last, ts[1..], interval);
    }
  }

  /** Consecutive due frames are at least one interval apart. */
  lemma {:induction false} DueTimesGaps(last: real, ts: seq<real>, interval: real)
    ensures var r := DueTimes(last, ts, interval); forall k :: 0 < k < |r| ==> r[k] - r[k - 1] >= interval
    decreases |ts|
  {
    if ts != [] {
      if ts[0] - last >= interval {
        DueTimesGaps(ts[0], ts[1..], interval);
        DueTimesFirst(ts[0], ts[1..], interval);
        var rest := DueTimes(ts[0], ts[1..], interval);
        var r := [ts[0]] + rest;
        assert DueTimes(last, ts, interval) == r;
        assert forall k :: 0 < k < |r| ==> r[k] == rest[k - 1];
      } else {
        assert DueTimes(last, ts, interval) == DueTimes(last, ts[1..], interval);
        DueTimesGaps(last, ts[1..], interval);
      }
    }
  }

  /** The `n`-th due frame comes no earlier than `n` intervals after `last`. */
  lemma {:induction false} DueTimesLast(last: real, ts: seq<real>, interval: real)
    ensures var r := DueTimes(last, ts, interval); |r| > 0 ==> r[|r| - 1] >= last + |r| as real * interval
    decreases |ts|
  {
    if ts != [] {
      if ts[0] - last >= interval {
        DueTimesLast(ts[0], ts[1..], interval);
        var rest := DueTimes(ts[0], ts[1..], interval);
        var r := [ts[0]] + rest;
        assert DueTimes(last, ts, interval) == r;
        var n := |rest| as real;
        assert |r| as real * interval == interval + n * interval;
        if rest != [] {
          assert r[|r| - 1] == rest[|rest| - 1] >= ts[0] + n * interval;
        }
      } else {
        assert DueTimes(last, ts, interval) == DueTimes(last, ts[1..], interval);
        DueTimesLast(last, ts[1..], interval);
      }
    }
  }

  /** The frame limiter: due frames are at least one interval apart, so the `n`-th of them comes
      no earlier than `n` intervals after `last`. */
  lemma DueTimesSpaced(last: real, ts: seq<real>, interval: real)
    ensures var r := DueTimes(last, ts, interval);
            && (|r| > 0 ==> r[0] - last >= interval)
            && (forall k :: 0 < k < |r| ==> r[k] - r[k - 1] >= interval)
            && (|r| > 0 ==> r[|r| - 1] >= last + |r| as real * interval)
  {
    DueTimesFirst(last, ts, interval);
    DueTimesGaps(last, ts, interval);
    DueTimesLast(last, ts, interval);
  }

  /** Within a window of `window` milliseconds after `last`, at most `window / interval` frames
      are drawn. */
  lemma DueTimesPerWindow(last: real, ts: seq<real>, interval: real, window: real)
    requires interval > 0.0 && window >= 0.0 && forall k :: 0 <= k < |ts| ==> ts[k] <= last + window
    ensures |DueTimes(last, ts, interval)| as real * interval <= window
  {
    DueTimesSpaced(last, ts, interval);
    DueTimesWithin(last, ts, interval, last + window);
    var r := DueTimes(last, ts, interval);
    if r != [] {
      assert last + |r| as real * interval <= r[|r| - 1] <= last + window;
    }
  }

  /** Every due time is one of the callback times. */
  lemma {:induction false} DueTimesWithin(last: real, ts: seq<real>, interval: real, bound: real)
    requires forall k :: 0 <= k < |ts| ==> ts[k] <= bound
    ensures forall k :: 0 <= k < |DueTimes(last, ts, interval)| ==> DueTimes(last, ts, interval)[k] <= bound
    decreases |ts|
  {
    if ts != [] {
      DueTimesWithin(ts[0], ts[1..], interval, bound);
      DueTimesWithin(last, ts[1..], interval, bound);
    }
  }

  // ---------------------------------------------------------------------------
  // Scene contents

  datatype Geometry = Box | Sphere | Cone

  /** The geometry of the `i`-th mesh: box, sphere and cone in turn. */
  function GeometryFor(i: nat): Geometry {
    match i % 3
    case 0 => Box
    case 1 => Sphere
    case _ => Cone
  }

  /** `createOptimizedObjects`: one mesh per object, pushed in order. */
  method CreateObjects(objectCount: nat) returns (meshes: seq<Geometry>)
    ensures |meshes| == objectCount
    ensures forall i :: 0 <= i < objectCount ==> meshes[i] == GeometryFor(i)
  {
    meshes := [];
    var i := 0;
    while i < objectCount
      invariant 0 <= i <= objectCount && |meshes| == i
      invariant forall j :: 0 <= j < i ==> meshes[j] == GeometryFor(j)
    {
      var geometry := match i % 3 { case 0 => Box case 1 => Sphere case _ => Cone };
      meshes := meshes + [geometry];
      i := i + 1;
    }
  }

  /** Component `c` (0, 1, 2 for x, y, z) of the position of particle `j`: each particle draws
      six numbers, the first three spread over 15 (x, y) and 8 (z) around the origin. */
  function PositionValue(rand: nat -> real, j: nat, c: nat): real {
    (rand(6 * j + c) - 0.5) * (if c == 2 then 8.0 else 15.0)
  }

  /** Component `c` of the colour of particle `j`: the last three draws of the particle. */
  function ColorValue(rand: nat -> real, j: nat, c: nat): real {
    rand(6 * j + 3 + c) * 0.5 + 0.5
  }

  /** Every colour component is `r * 0.5 + 0.5` with `r` in [0, 1), so it lies in [0.5, 1). */
  lemma ColorInRange(rand: nat -> real, j: nat, c: nat)
    requires UnitStream(rand)
    ensures 0.5 <= ColorValue(rand, j, c) < 1.0
  {
    assert 0.0 <= rand(6 * j + 3 + c) < 1.0;
  }

  /** A rounding to a floating-point format, such as the store into a `Float32Array`: it keeps
      order and leaves the representable values 0.5 and 1.0 alone. */
  ghost predicate OrderPreservingRounding(round: real -> real)
  {
    && round(0.5) == 0.5 && round(1.0) == 1.0
    && forall x: real, y: real :: x <= y ==> round(x) <= round(y)
  }

  /** Once stored in the colour buffer, a component is rounded to single precision, and a value
      just below 1 can become 1: the bound that survives is [0.5, 1]. */
  lemma StoredColorInRange(rand: nat -> real, round: real -> real, j: nat, c: nat)
    requires UnitStream(rand) && OrderPreservingRounding(round)
    ensures 0.5 <= round(ColorValue(rand, j, c)) <= 1.0
  {
    ColorInRange(rand, j, c);
    var v := ColorValue(rand, j, c);
    assert round(0.5) <= round(v) <= round(1.0);
  }

  /** Writes the three components `x`, `y`, `z` of one particle at `a[i3..i3 + 3]`. */
  method SetTriple(a: array<real>, i3: nat, x: real, y: real, z: real)
    requires i3 + 3 <= a.Length
    modifies a
    ensures a[i3] == x && a[i3 + 1] == y && a[i3 + 2] == z
    ensures forall k :: 0 <= k < a.Length && !(i3 <= k < i3 + 3) ==> a[k] == old(a[k])
  {
    a[i3] := x;
    a[i3 + 1] := y;
    a[i3 + 2] := z;
  }

  /** `createOptimizedParticleSystem`: both buffers hold three numbers per particle, filled
      particle by particle from the random stream (see `ColorInRange` for the colour bounds). */
  method CreateParticleBuffers(particleCount: nat, rand: nat -> real)
    returns (positions: array<real>, colors: array<real>)
    requires UnitStream(rand)
    ensures positions.Length == 3 * particleCount
    ensures colors.Length == 3 * particleCount
    ensures forall j, c :: 0 <= j < particleCount && 0 <= c < 3 ==>
              positions[3 * j + c] == PositionValue(rand, j, c)
    ensures forall j, c :: 0 <= j < particleCount && 0 <= c < 3 ==>
              colors[3 * j + c] == ColorValue(rand, j, c)
  {
    positions := new real[3 * particleCount];
    colors := new real[3 * particleCount];
    var i, i3 := 0, 0;
    while i < particleCount
      invariant 0 <= i <= particleCount && i3 == 3 * i
      invariant forall j, c :: 0 <= j < i && 0 <= c < 3 ==> positions[3 * j + c] == PositionValue(rand, j, c)
      invariant forall j, c :: 0 <= j < i && 0 <= c < 3 ==> colors[3 * j + c] == ColorValue(rand, j, c)
    {
      SetTriple(positions, i3, (rand(6 * i) - 0.5) * 15.0, (rand(6 * i + 1) - 0.5) * 15.0,
                (rand(6 * i + 2) - 0.5) * 8.0);
      SetTriple(colors, i3, rand(6 * i + 3) * 0.5 + 0.5, rand(6 * i + 4) * 0.5 + 0.5,
                rand(6 * i + 5) * 0.5 + 0.5);
      i, i3 := i + 1, i3 + 3;
    }
  }

  // ---------------------------------------------------------------------------
  // The hook's refs and lifecycle

  /** What initialisation built, as far as the hook decides it. */
  datatype SceneBuild = SceneBuild(meshes: seq<Geometry>, antialias: bool, shadowMapEnabled: bool)

  /** What one initialisation run builds for the configuration: the meshes, the renderer
      settings and the two particle buffers. */
  method BuildScene(config: SceneConfig, isHighPerformance: bool, rand: nat -> real)
    returns (build: SceneBuild, positions: array<real>, colors: array<real>)
    requires UnitStream(rand)
    ensures |build.meshes| == config.objectCount
    ensures forall i :: 0 <= i < |build.meshes| ==> build.meshes[i] == GeometryFor(i)
    ensures build.antialias == isHighPerformance && build.shadowMapEnabled == config.enableShadows
    ensures positions.Length == 3 * config.particleCount && colors.Length == 3 * config.particleCount
    ensures forall k :: 0 <= k < colors.Length ==> 0.5 <= colors[k] < 1.0
  {
    var meshes := CreateObjects(config.objectCount);
    // the meshes draw three random positions each before the particle buffers draw theirs
    var offset := 3 * config.objectCount;
    var particleRand := (n: nat) => rand(offset + n);
    assert UnitStream(particleRand) by {
      forall n: nat ensures 0.0 <= particleRand(n) < 1.0 {
        assert 0.0 <= rand(offset + n) < 1.0;
      }
    }
    positions, colors := CreateParticleBuffers(config.particleCount, particleRand);
    build := SceneBuild(meshes, isHighPerformance, config.enableShadows);
    forall k | 0 <= k < colors.Length ensures 0.5 <= colors[k] < 1.0 {
      var j, c := k / 3, k % 3;
      assert k == 3 * j + c;
      ColorInRange(particleRand, j, c);
    }
  }

  // ---------------------------------------------------------------------------
  // Animation-frame requests

  /** A pending `requestAnimationFrame` callback: the browser's request id and the `isVisible`
      that the `renderLoop` closure it will call had captured. */
  datatype FrameRequest = FrameRequest(id: nat, capturedVisible: bool)

  /** The requests the browser holds, the id last stored in `animationRef.current` (0 while it
      is undefined: the browser's ids start at 1), and the id the browser hands out next. */
  datatype FrameState = FrameState(pending: seq<FrameRequest>, animationRef: nat, nextId: nat)

  /** `cancelAnimationFrame(id)`: the request with that id no longer fires; an id that is not
      pending is ignored. */
  function CancelRequest(pending: seq<FrameRequest>, id: nat): (r: seq<FrameRequest>)
    ensures |r| <= |pending|
    ensures forall q :: q in r <==> q in pending && q.id != id
  {
    if pending == [] then []
    else (if pending[0].id == id then [] else [pending[0]]) + CancelRequest(pending[1..], id)
  }

  /** Cancelling the same id twice cancels nothing more. */
  lemma {:induction false} CancelRequestTwice(pending: seq<FrameRequest>, id: nat)
    ensures CancelRequest(CancelRequest(pending, id), id) == CancelRequest(pending, id)
  {
    if pending != [] {
      var rest := CancelRequest(pending[1..], id);
      CancelRequestTwice(pending[1..], id);
      if pending[0].id == id {
        assert CancelRequest(pending, id) == rest;
      } else {
        var once := [pending[0]] + rest;
        assert CancelRequest(pending, id) == once;
        assert once[1..] == rest;
      }
    }
  }

  /** `animationRef.current = requestAnimationFrame(renderLoop)`, from a render in which the
      scene is visible (the only renders that request frames). */
  function Request(f: FrameState): (r: FrameState)
    ensures r.pending == f.pending + [FrameRequest(f.nextId, true)]
    ensures r.animationRef == f.nextId && r.nextId == f.nextId + 1
  {
    FrameState(f.pending + [FrameRequest(f.nextId, true)], f.nextId, f.nextId + 1)
  }

  /** `if (animationRef.current) cancelAnimationFrame(animationRef.current)`: only the request
      stored last is cancelled; `animationRef` keeps its value. */
  function Cancel(f: FrameState): (r: FrameState)
    ensures r.animationRef == f.animationRef && r.nextId == f.nextId
    ensures forall q :: q in r.pending <==> q in f.pending && (f.animationRef == 0 || q.id != f.animationRef)
  {
    if f.animationRef != 0 then f.(pending := CancelRequest(f.pending, f.animationRef)) else f
  }

  /** The frame requests after one commit: the initialisation effect's cleanup (when it re-runs
      and had installed one), its new run (requesting a frame when it builds a visible scene),
      then the visibility effect (when it re-runs) requesting a frame or cancelling the last. */
  function CommitFrames(f: FrameState, cleanupRuns: bool, initRequests: bool,
                        visibilityRuns: bool, visibilityRequests: bool): FrameState
  {
    var afterCleanup := if cleanupRuns then Cancel(f) else f;
    var afterInit := if initRequests then Request(afterCleanup) else afterCleanup;
    if !visibilityRuns then afterInit
    else if visibilityRequests then Request(afterInit)
    else Cancel(afterInit)
  }

  /** Hiding the scene: whatever the cleanup did, the one request whose id `animationRef` holds
      is cancelled and every other request stays pending. */
  lemma HideCancelsOnlyTheLast(f: FrameState, cleanupRuns: bool)
    ensures var r := CommitFrames(f, cleanupRuns, false, true, false);
            && r.pending == (if f.animationRef != 0 then CancelRequest(f.pending, f.animationRef) else f.pending)
            && r.animationRef == f.animationRef && r.nextId == f.nextId
  {
    if f.animationRef != 0 && cleanupRuns {
      CancelRequestTwice(f.pending, f.animationRef);
    }
  }

  /** Showing a built scene: both effects request a frame, so two render loops start, and
      `animationRef` remembers only the second. */
  lemma ShowStartsTwoLoops(f: FrameState, cleanupRuns: bool)
    ensures var r := CommitFrames(f, cleanupRuns, true, true, true);
            var kept := if cleanupRuns then Cancel(f).pending else f.pending;
            && r.pending == kept + [FrameRequest(f.nextId, true), FrameRequest(f.nextId + 1, true)]
            && r.animationRef == f.nextId + 1 && r.nextId == f.nextId + 2
  {
    var kept := if cleanupRuns then Cancel(f).pending else f.pending;
    assert kept + [FrameRequest(f.nextId, true)] + [FrameRequest(f.nextId + 1, true)]
        == kept + [FrameRequest(f.nextId, true), FrameRequest(f.nextId + 1, true)];
  }

  /** Showing a built scene and hiding it again, on any device: the first of the two loops the
      show started is still pending afterwards. */
  lemma ShowThenHideLeavesALoop(f: FrameState, cleanupRuns: bool)
    ensures var shown := CommitFrames(f, cleanupRuns, true, true, true);
            FrameRequest(f.nextId, true) in CommitFrames(shown, true, false, true, false).pending
  {
    ShowStartsTwoLoops(f, cleanupRuns);
    var shown := CommitFrames(f, cleanupRuns, true, true, true);
    HideCancelsOnlyTheLast(shown, true);
    assert FrameRequest(f.nextId, true) in shown.pending;
  }

  /** Every pending request comes from a render in which the scene was visible. */
  predicate AllCapturedVisible(pending: seq<FrameRequest>)
  {
    forall k :: 0 <= k < |pending| ==> pending[k].capturedVisible
  }

  /** Frames are requested only from visible renders, so a commit never adds a request that
      captured a hidden scene. */
  lemma CommitKeepsCapturedVisible(f: FrameState, cleanupRuns: bool, initRequests: bool,
                                   visibilityRuns: bool, visibilityRequests: bool)
    requires AllCapturedVisible(f.pending)
    ensures AllCapturedVisible(CommitFrames(f, cleanupRuns, initRequests, visibilityRuns, visibilityRequests).pending)
  {
    var afterCleanup := if cleanupRuns then Cancel(f) else f;
    assert AllCapturedVisible(afterCleanup.pending) by {
      forall k | 0 <= k < |afterCleanup.pending| ensures afterCleanup.pending[k].capturedVisible {
        assert afterCleanup.pending[k] in f.pending;
      }
    }
    var afterInit := if initRequests then Request(afterCleanup) else afterCleanup;
    assert AllCapturedVisible(afterInit.pending);
    if visibilityRuns && !visibilityRequests {
      var r := Cancel(afterInit);
      forall k | 0 <= k < |r.pending| ensures r.pending[k].capturedVisible {
        assert r.pending[k] in afterInit.pending;
      }
    }
  }

  // ---------------------------------------------------------------------------
  // The hook's refs and effects

  /** `renderLoop` is a new closure when `isVisible` changed or `getSceneConfig` is new, which
      it is when high performance or mobile changed. */
  function RenderLoopChanged(visible: bool, isHighPerformance: bool, isMobile: bool,
                             visible': bool, isHighPerformance': bool, isMobile': bool): (r: bool)
    ensures !r <==> visible' == visible && isHighPerformance' == isHighPerformance && isMobile' == isMobile
  {
    visible' != visible || isHighPerformance' != isHighPerformance || isMobile' != isMobile
  }

  /** The initialisation effect re-runs when `supportsWebGL`, `getSceneConfig`, `isVisible` or
      `renderLoop` changed. */
  function InitReruns(visible: bool, isHighPerformance: bool, isMobile: bool, supportsWebGL: bool,
                      visible': bool, isHighPerformance': bool, isMobile': bool, supportsWebGL': bool): (r: bool)
    ensures RenderLoopChanged(visible, isHighPerformance, isMobile, visible', isHighPerformance', isMobile') ==> r
    ensures !r <==> !RenderLoopChanged(visible, isHighPerformance, isMobile, visible', isHighPerformance', isMobile')
                    && supportsWebGL' == supportsWebGL
  {
    RenderLoopChanged(visible, isHighPerformance, isMobile, visible', isHighPerformance', isMobile')
    || supportsWebGL' != supportsWebGL
  }

  /** The hook's state. The profile comes from the detection hook and changes once detection
      completes. `sceneBuilt` stands for `sceneRef`, `rendererRef` and the camera stored on the
      renderer, which one initialisation run sets together and nothing resets; `pending`,
      `animationRef` and `nextId` are the frame requests (`Frames()`). */
  class SceneLoop {
    var isHighPerformance: bool
    var isMobile: bool
    var supportsWebGL: bool
    var isVisible: bool
    var sceneBuilt: bool
    var lastFrameTime: real
    var pending: seq<FrameRequest>
    var animationRef: nat
    var nextId: nat
    var resizeListener: bool
    var resizeTimeoutPending: bool
    var rendererDisposed: bool
    /** Whether the initialisation effect's last run returned a cleanup. */
    var cleanupInstalled: bool

    /** Request ids are handed out from 1 on, and the resize listener is installed exactly
        while the cleanup that removes it is. */
    predicate Valid()
      reads this
    {
      && 1 <= nextId && animationRef < nextId && resizeListener == cleanupInstalled
    }

    function Frames(): FrameState
      reads this
    {
      FrameState(pending, animationRef, nextId)
    }

    /** The first render, before any effect has run, with the profile the detection hook
        publishes before it has measured anything (no WebGL yet). */
    constructor (isVisible: bool)
      ensures Valid()
      ensures isHighPerformance && !isMobile && !supportsWebGL && this.isVisible == isVisible
      ensures !sceneBuilt && lastFrameTime == 0.0
      ensures pending == [] && animationRef == 0 && nextId == 1
      ensures !resizeListener && !resizeTimeoutPending && !rendererDisposed && !cleanupInstalled
    {
      isHighPerformance, isMobile, supportsWebGL := true, false, false;
      this.isVisible := isVisible;
      sceneBuilt := false;
      lastFrameTime := 0.0;
      pending, animationRef, nextId := [], 0, 1;
      resizeListener, resizeTimeoutPending, rendererDisposed, cleanupInstalled := false, false, false, false;
    }

    function Config(): SceneConfig
      reads this
    {
      GetSceneConfig(isHighPerformance, isMobile)
    }

    /** A run of the initialisation effect (React has run the previous run's cleanup first).
        Without a canvas or without WebGL it returns at once, installing no cleanup. */
    method Init(hasCanvas: bool, rand: nat -> real)
      returns (build: SceneBuild, positions: array<real>, colors: array<real>)
      requires Valid() && UnitStream(rand) && !cleanupInstalled
      modifies this`sceneBuilt, this`rendererDisposed, this`pending, this`animationRef, this`nextId,
               this`resizeListener, this`cleanupInstalled
      ensures Valid()
      ensures !(hasCanvas && supportsWebGL) ==>
                build == SceneBuild([], false, false) && positions.Length == 0 && colors.Length == 0
                && unchanged(this)
      ensures hasCanvas && supportsWebGL ==>
                && sceneBuilt && resizeListener && cleanupInstalled
                && |build.meshes| == Config().objectCount
                && (forall i :: 0 <= i < |build.meshes| ==> build.meshes[i] == GeometryFor(i))
                && build.antialias == isHighPerformance
                && build.shadowMapEnabled == Config().enableShadows
                && positions.Length == 3 * Config().particleCount
                && colors.Length == 3 * Config().particleCount
                && (forall k :: 0 <= k < colors.Length ==> 0.5 <= colors[k] < 1.0)
                && Frames() == (if isVisible then Request(old(Frames())) else old(Frames()))
                && !rendererDisposed
    {
      if !hasCanvas || !supportsWebGL {
        build := SceneBuild([], false, false);
        positions := new real[0];
        colors := new real[0];
        return;
      }
      build, positions, colors := BuildScene(Config(), isHighPerformance, rand);
      sceneBuilt := true;
      rendererDisposed := false;
      if isVisible {
        var next := Request(Frames());
        pending, animationRef, nextId := next.pending, next.animationRef, next.nextId;
      }
      resizeListener := true;
      cleanupInstalled := true;
    }

    /** The initialisation effect run for its effect on the hook's state alone. */
    method RerunInit(hasCanvas: bool, rand: nat -> real)
      requires Valid() && UnitStream(rand) && !cleanupInstalled
      modifies this`sceneBuilt, this`rendererDisposed, this`pending, this`animationRef, this`nextId,
               this`resizeListener, this`cleanupInstalled
      ensures Valid()
      ensures cleanupInstalled == (hasCanvas && supportsWebGL)
      ensures sceneBuilt == (old(sceneBuilt) || cleanupInstalled)
      ensures rendererDisposed == (old(rendererDisposed) && !cleanupInstalled)
      ensures Frames() == (if isVisible && cleanupInstalled then Request(old(Frames())) else old(Frames()))
    {
      var build, positions, colors := Init(hasCanvas, rand);
    }

    /** The visibility effect: request a frame when visible with a scene and renderer, otherwise
        cancel the request whose id `animationRef` holds. */
    method VisibilityEffect()
      requires Valid()
      modifies this`pending, this`animationRef, this`nextId
      ensures Valid()
      ensures Frames() == if isVisible && sceneBuilt then Request(old(Frames())) else Cancel(old(Frames()))
    {
      if isVisible && sceneBuilt {
        pending, animationRef, nextId := pending + [FrameRequest(nextId, isVisible)], nextId, nextId + 1;
      } else if animationRef != 0 {
        pending := CancelRequest(pending, animationRef);
      }
    }

    /** The effects of a commit after the cleanups: the initialisation effect, then the
        visibility effect when it re-runs. */
    method RunEffects(visibilityRuns: bool, hasCanvas: bool, rand: nat -> real)
      requires Valid() && UnitStream(rand) && !cleanupInstalled
      modifies this`sceneBuilt, this`rendererDisposed, this`pending, this`animationRef, this`nextId,
               this`resizeListener, this`cleanupInstalled
      ensures Valid()
      ensures cleanupInstalled == (hasCanvas && supportsWebGL)
      ensures sceneBuilt == (old(sceneBuilt) || cleanupInstalled)
      ensures rendererDisposed == (old(rendererDisposed) && !cleanupInstalled)
      ensures Frames() == CommitFrames(old(Frames()), false, isVisible && cleanupInstalled, visibilityRuns,
                                       isVisible && sceneBuilt)
    {
      RerunInit(hasCanvas, rand);
      if visibilityRuns {
        VisibilityEffect();
      }
    }

    /** The first commit: the initialisation effect, then the visibility effect. */
    method Mount(hasCanvas: bool, rand: nat -> real)
      requires Valid() && UnitStream(rand) && !cleanupInstalled
      modifies this`sceneBuilt, this`rendererDisposed, this`pending, this`animationRef, this`nextId,
               this`resizeListener, this`cleanupInstalled
      ensures Valid()
      ensures cleanupInstalled == (hasCanvas && supportsWebGL)
      ensures sceneBuilt == (old(sceneBuilt) || cleanupInstalled)
      ensures Frames() == CommitFrames(old(Frames()), false, isVisible && cleanupInstalled, true,
                                       isVisible && sceneBuilt)
    {
      RunEffects(true, hasCanvas, rand);
    }

    /** The request at index `i` fires at time `now` and calls the `renderLoop` it was made
        with. That closure tests the visibility it captured (always true, by
        `CommitKeepsCapturedVisible`) and the refs; the current `isVisible` plays no part. A frame
        is drawn once a whole frame interval has passed since the last drawn one, and the loop
        requests its next frame with the same closure. The interval comes from the current
        configuration rather than the one the closure captured; they differ only after a second
        profile change, which the detection hook never publishes. */
    method RenderLoop(i: nat, now: real) returns (drawn: bool)
      requires Valid() && i < |pending|
      modifies this`lastFrameTime, this`pending, this`animationRef, this`nextId
      ensures Valid()
      ensures !(old(pending[i]).capturedVisible && sceneBuilt) ==>
                && !drawn && pending == old(pending[..i] + pending[i + 1..])
                && lastFrameTime == old(lastFrameTime) && animationRef == old(animationRef)
                && nextId == old(nextId)
      ensures old(pending[i]).capturedVisible && sceneBuilt ==>
                && drawn == (now - old(lastFrameTime) >= FrameInterval(Config()))
                && lastFrameTime == (if drawn then now else old(lastFrameTime))
                && Frames() == Request(old(Frames()).(pending := old(pending[..i] + pending[i + 1..])))
    {
      var request := pending[i];
      pending := pending[..i] + pending[i + 1..];
      if !request.capturedVisible || !sceneBuilt {
        return false;
      }
      var config := Config();
      var frameInterval := 1000.0 / config.targetFps as real;
      drawn := now - lastFrameTime >= frameInterval;
      if drawn {
        // the camera stored on the renderer and the scene ref are both set: render
        lastFrameTime := now;
      }
      pending, animationRef, nextId := pending + [FrameRequest(nextId, request.capturedVisible)], nextId, nextId + 1;
    }

    /** The initialisation effect's cleanup: the listener is removed, only the request whose id
        `animationRef` holds is cancelled, the renderer is disposed and the resize timeout
        cleared. The refs stay set. Without an installed cleanup nothing happens. */
    method Cleanup()
      requires Valid()
      modifies this`resizeListener, this`pending, this`rendererDisposed, this`resizeTimeoutPending,
               this`cleanupInstalled
      ensures Valid() && !cleanupInstalled && !resizeListener
      ensures resizeTimeoutPending == (old(resizeTimeoutPending) && !old(cleanupInstalled))
      ensures rendererDisposed == (old(rendererDisposed) || old(cleanupInstalled))
      ensures Frames() == if old(cleanupInstalled) then Cancel(old(Frames())) else old(Frames())
    {
      if !cleanupInstalled {
        return;
      }
      resizeListener := false;
      if animationRef != 0 {
        pending := CancelRequest(pending, animationRef);
      }
      rendererDisposed := true;
      resizeTimeoutPending := false;
      cleanupInstalled := false;
    }

    /** A later render, with the caller's `isVisible` and the detection hook's profile. A
        change of high performance or mobile gives a new `getSceneConfig`, and that or a change
        of `isVisible` gives a new `renderLoop`. The initialisation effect re-runs (cleanup
        first) when `supportsWebGL`, `getSceneConfig`, `isVisible` or `renderLoop` changed; the
        visibility effect re-runs when `isVisible` or `renderLoop` changed. */
    method Rerender(visible: bool, isHighPerformance': bool, isMobile': bool, supportsWebGL': bool,
                    hasCanvas: bool, rand: nat -> real)
      requires Valid() && UnitStream(rand)
      modifies this`isHighPerformance, this`isMobile, this`supportsWebGL, this`isVisible, this`sceneBuilt,
               this`pending, this`animationRef, this`nextId, this`resizeListener, this`resizeTimeoutPending,
               this`rendererDisposed, this`cleanupInstalled
      ensures Valid() && isVisible == visible
      ensures isHighPerformance == isHighPerformance' && isMobile == isMobile' && supportsWebGL == supportsWebGL'
      ensures !InitReruns(old(isVisible), old(isHighPerformance), old(isMobile), old(supportsWebGL),
                          visible, isHighPerformance', isMobile', supportsWebGL') ==>
                && cleanupInstalled == old(cleanupInstalled) && sceneBuilt == old(sceneBuilt)
                && Frames() == old(Frames())
      ensures InitReruns(old(isVisible), old(isHighPerformance), old(isMobile), old(supportsWebGL),
                         visible, isHighPerformance', isMobile', supportsWebGL') ==>
                && cleanupInstalled == (hasCanvas && supportsWebGL')
                && sceneBuilt == (old(sceneBuilt) || cleanupInstalled)
                && Frames() == CommitFrames(old(Frames()), old(cleanupInstalled), visible && cleanupInstalled,
                                            RenderLoopChanged(old(isVisible), old(isHighPerformance), old(isMobile),
                                                              visible, isHighPerformance', isMobile'),
                                            visible && sceneBuilt)
    {
      var renderLoopChanged := RenderLoopChanged(isVisible, isHighPerformance, isMobile,
                                                 visible, isHighPerformance', isMobile');
      if !InitReruns(isVisible, isHighPerformance, isMobile, supportsWebGL,
                     visible, isHighPerformance', isMobile', supportsWebGL') {
        isVisible, isHighPerformance, isMobile, supportsWebGL := visible, isHighPerformance', isMobile', supportsWebGL';
        return;
      }
      Cleanup();
      isVisible, isHighPerformance, isMobile, supportsWebGL := visible, isHighPerformance', isMobile', supportsWebGL';
      RunEffects(renderLoopChanged, hasCanvas, rand);
    }

    /** A window resize, while the listener is installed, replaces the pending resize timeout
        by a new one. */
    method OnResize()
      modifies this`resizeTimeoutPending
      ensures resizeTimeoutPending == (old(resizeTimeoutPending) || resizeListener)
    {
      if resizeListener {
        resizeTimeoutPending := true;
      }
    }

    /** The 100 ms resize timeout fires and resizes camera and renderer. */
    method ResizeTimeoutFires()
      modifies this`resizeTimeoutPending
      ensures !resizeTimeoutPending
    {
      resizeTimeoutPending := false;
    }
  }

  /** On a device detected as slow or mobile: mounting (no WebGL yet) builds nothing; the
      detection render changes `getSceneConfig`, so both effects run and two loops start, and
      `animationRef` remembers only the second. */
  method DetectSlowDevice(isMobile: bool, rand: nat -> real) returns (s: SceneLoop)
    requires UnitStream(rand)
    ensures fresh(s) && s.Valid() && s.isVisible && s.sceneBuilt && s.cleanupInstalled
    ensures !s.isHighPerformance && s.isMobile == isMobile && s.supportsWebGL && s.lastFrameTime == 0.0
    ensures s.Frames() == FrameState([FrameRequest(1, true), FrameRequest(2, true)], 2, 3)
  {
    s := new SceneLoop(true);
    s.Mount(true, rand);
    assert s.Frames() == FrameState([], 0, 1);
    assert RenderLoopChanged(true, true, false, true, false, isMobile);
    s.Rerender(true, false, isMobile, true, true, rand);
  }

  /** Hiding then cancels only the second loop: the first captured `isVisible == true`, the
      refs are still set, and it goes on drawing frames while the scene is hidden. */
  method HiddenSceneKeepsDrawing(isMobile: bool, rand: nat -> real, now: real) returns (s: SceneLoop, drawn: bool)
    requires UnitStream(rand) && now >= 100.0
    ensures !s.isVisible && drawn && |s.pending| == 1
  {
    s := DetectSlowDevice(isMobile, rand);
    assert RenderLoopChanged(true, false, isMobile, false, false, isMobile);
    s.Rerender(false, false, isMobile, true, true, rand);
    HideCancelsOnlyTheLast(FrameState([FrameRequest(1, true), FrameRequest(2, true)], 2, 3), true);
    assert s.pending == [FrameRequest(1, true)];
    assert FrameInterval(s.Config()) <= 1000.0 / 30.0;
    drawn := s.RenderLoop(0, now);
  }

  /** Unmounting after detection on such a device cancels only the second loop too. */
  method UnmountLeavesAFrame(isMobile: bool, rand: nat -> real) returns (s: SceneLoop)
    requires UnitStream(rand)
    ensures !s.cleanupInstalled && s.pending == [FrameRequest(1, true)]
  {
    s := DetectSlowDevice(isMobile, rand);
    s.Cleanup();
  }
}
