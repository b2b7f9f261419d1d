# Oaza marketing site: a verified model of its client-side logic

Oaza is a Next.js marketing site for a digital agency. Most of it is markup and animation. The
logic underneath is what this project models:

- the device-performance profile: the mobile user-agent test, the boolean high-performance
  classification, the one-second frame-rate sampler, the throttle and debounce helpers, and the
  viewport test;
- the static performance configuration: the thresholds of the three performance levels, the
  per-level animation tables and the feature switches;
- the optimised Three.js scene hook: the scene configuration, the frame limiter, the mesh and
  particle-buffer construction, and the lifecycle;
- the development performance monitor: threshold checks, a log of the last five warnings, a
  history of the last ten samples, the averages and the error indicator;
- the two full-screen preloaders: particle ticks, progress, phases, completion and skip;
- the services hero's configuration and its typewriter heading;
- the contact API route: required fields, the e-mail pattern and the status codes;
- the contact form that posts to that route;
- the portfolio filter and cards;
- the theme provider;
- the footer newsletter form and its particle layout.

Each React component whose state changes over time is a `class`:

- every `useState` or `useRef` is a field;
- every event handler, effect run or timer callback is a method, named after the event
  (`...Fires`, `...EffectRuns`);
- each method states the new value of every field it changes.

The state updaters passed to `setState` are pure functions, and the lemmas are about them.
Browser probes, clocks and `Math.random` are parameters. A stream of random draws is a function
`rand: nat -> real` whose values lie in [0, 1) (`JsValues.UnitStream`). JavaScript numbers are
`real`: the model computes exactly where the browser rounds to doubles. The one place where
rounding changes a bound is the scene's single-precision colour buffer (`StoredColorInRange`).

Modules, one per source file, plus two shared ones:

| module | source |
|---|---|
| `JsValues` | JavaScript's `\s`, `trim` and falsy strings (shared) |
| `PerformanceConfig` | `src/lib/config/performance.ts` |
| `PerformanceDetection` | `src/lib/hooks/usePerformanceDetection.ts` |
| `OptimizedThreeScene` | `src/lib/hooks/useOptimizedThreeScene.ts` |
| `PerformanceMonitor` | `src/components/common/PerformanceMonitor.tsx` |
| `LoadingTicks` | the interval updaters both preloaders share (shared) |
| `Preloader` | `src/components/common/Preloader.tsx` |
| `OptimizedPreloader` | `src/components/common/OptimizedPreloader.tsx` |
| `OptimizedServicesHero` | `src/components/sections/OptimizedServicesHero.tsx` |
| `ContactRoute` | `src/app/api/contact/route.ts` |
| `ContactSection` | `src/components/sections/Contact.tsx` |
| `Portfolio` | `src/components/sections/Portfolio.tsx`, `src/lib/types.ts` |
| `ThemeContext` | `src/contexts/ThemeContext.tsx` |
| `Footer` | `src/components/layout/Footer.tsx` |

Where the code and its written description disagree, the model follows the code:

- The frame-rate sampler that starts after detection is never cancelled. Its measurement never
  reaches the published profile: that profile always says 60 fps and is computed before sampling
  starts.
- `getPerformanceLevel` is called nowhere in the repository. It is modelled as written.
- Progress is incremented after the 100 check. It can therefore end above 100: below 110 in
  the preloader and in the optimised preloader on a fast device, and below 114 on a slow one.
- The particle interval reads `particles.length` from the render that installed it, which is a
  stale closure. The model keeps that captured length as a field (`capturedLength`).
- The contact route treats `company` and `service` as irrelevant. Its e-mail pattern accepts
  several dots in the domain.
- Both the scene's initialisation effect and its visibility effect request animation frames, so
  showing a built scene starts two render loops. `animationRef` keeps only the second id, so
  hiding or unmounting cancels only that one. The first loop tests the `isVisible` its closure
  captured, which was true, and goes on drawing while the scene is hidden.
- A change of visibility re-runs the scene's whole initialisation effect, because `isVisible`
  and `renderLoop` are among its dependencies.
- Both performance-aware components render first with the detection hook's optimistic profile
  (fast, not mobile). On a slow device the optimised preloader therefore generates 50 particles
  at mount. When detection flips the profile, the particle effect returns before it touches the
  list, so those particles stay, and the timer effect restarts, so completion moves to a full
  `duration` after detection.
- On a touch device the monitor's `touchend` handler ends a scroll, and the scroll-end timeout
  that the scroll events left pending ends it again, so a slow scroll is logged twice.

## Model

| member | source | states |
|---|---|---|
| JsValues.TrimStart | src/components/layout/Footer.tsx:34 | the result is a suffix of the input that does not start with white space, and every character dropped is white space |
| JsValues.TrimEnd | src/components/layout/Footer.tsx:34 | the result is a prefix of the input that does not end with white space, and every character dropped is white space |
| JsValues.TrimEmptyIffBlank | src/components/layout/Footer.tsx:34 | `trim()` gives the empty string exactly when every character is white space |
| PerformanceConfig.GetPerformanceLevel | src/lib/config/performance.ts:294-319 | high exactly when fps >= 50, cores >= 4 and memory >= 4 GiB on a non-mobile device; low exactly on a mobile device or under any medium threshold (fps < 30, cores < 2, memory < 2 GiB); so medium exactly in between |
| PerformanceConfig.LevelMonotone | src/lib/config/performance.ts:294-319 | more fps, cores or memory never lowers the level |
| PerformanceConfig.LevelBoundaries | src/lib/config/performance.ts:4-23 | the thresholds are inclusive: 50 fps is high, 49 and 30 are medium, 29 is low |
| PerformanceConfig.GetAnimationConfig | src/lib/config/performance.ts:322-324 | the level's table is returned; 3D is on in preloader, navigation and general exactly at the high level; the scroll throttle is the level's throttle rate |
| PerformanceConfig.KnobsDecreaseWithLevel | src/lib/config/performance.ts:27-140 | particle counts, object counts and target fps strictly grow from low to medium to high, and the scroll throttle interval strictly shrinks |
| PerformanceConfig.ShouldEnableFeature | src/lib/config/performance.ts:327-333 | every feature is on at high; at medium exactly the (non-zero) animation duration and the intersection observer; at low only the animation duration; features other than those two imply high |
| PerformanceConfig.FeatureMonotone | src/lib/config/performance.ts:327-333 | a feature enabled at one level is enabled at every higher level |
| PerformanceDetection.ContainsFrom | src/lib/hooks/usePerformanceDetection.ts:28 | the scan succeeds exactly when the token occurs case-insensitively at or after the start position |
| PerformanceDetection.IsMobileUserAgent | src/lib/hooks/usePerformanceDetection.ts:28 | true exactly when one of the eight mobile tokens occurs anywhere in the user agent, ignoring case |
| PerformanceDetection.FoldAll | src/lib/hooks/usePerformanceDetection.ts:28 | folding keeps the length and folds each character |
| PerformanceDetection.MobileTestIgnoresCase | src/lib/hooks/usePerformanceDetection.ts:28 | the verdict does not change when the user agent's letters change case |
| PerformanceDetection.MobileExamples | src/lib/hooks/usePerformanceDetection.ts:28 | "(iPhone; CPU)" and "opera mini/9" are mobile, whatever the case of the letters |
| PerformanceDetection.EffectiveCores | src/lib/hooks/usePerformanceDetection.ts:71 | `hardwareConcurrency \|\| 4`: positive, and the reported count when it is present and non-zero |
| PerformanceDetection.Round | src/lib/hooks/usePerformanceDetection.ts:51 | `Math.round` lands within half a unit of its argument, halves going up |
| PerformanceDetection.SampleFrame | src/lib/hooks/usePerformanceDetection.ts:46-62 | a frame before the second is up only counts; once a second has passed, the counter restarts, fps is the frame rate rounded, and the high flag survives only if it was set and fps >= 30 |
| PerformanceDetection.SamplerExample | src/lib/hooks/usePerformanceDetection.ts:46-62 | 55 frames in one second record 55 fps and keep the high flag |
| PerformanceDetection.PerformanceDetector.constructor | src/lib/hooks/usePerformanceDetection.ts:17-23 | the initial profile and no sampler |
| PerformanceDetection.PerformanceDetector.Detect | src/lib/hooks/usePerformanceDetection.ts:26-101 | high performance exactly when the device is not mobile, has at least 4 effective cores and no low battery; the mobile flag is the user-agent test; fps is published as 60; the sampler starts afterwards |
| PerformanceDetection.PerformanceDetector.OnAnimationFrame | src/lib/hooks/usePerformanceDetection.ts:46-62 | the sampler advances by `SampleFrame` and the published profile never changes |
| PerformanceDetection.Throttle.constructor | src/lib/hooks/usePerformanceDetection.ts:124-136 | no window open and nothing forwarded |
| PerformanceDetection.Throttle.Call | src/lib/hooks/usePerformanceDetection.ts:124-136 | a call is forwarded exactly when no window is open, and a window is then open |
| PerformanceDetection.Throttle.WindowCloses | src/lib/hooks/usePerformanceDetection.ts:124-136 | the window closes and nothing is forwarded |
| PerformanceDetection.ThrottleBurst | src/lib/hooks/usePerformanceDetection.ts:124-136 | a burst forwards at most its first call; the rest are dropped, not deferred |
| PerformanceDetection.Debounce.constructor | src/lib/hooks/usePerformanceDetection.ts:112-121 | nothing pending and nothing run |
| PerformanceDetection.Debounce.Call | src/lib/hooks/usePerformanceDetection.ts:112-121 | the newest arguments replace any pending ones |
| PerformanceDetection.Debounce.TimeoutFires | src/lib/hooks/usePerformanceDetection.ts:112-121 | the pending arguments, if any, are run once and cleared |
| PerformanceDetection.DebounceBurst | src/lib/hooks/usePerformanceDetection.ts:112-121 | a burst and a quiet period run the function once, with the last arguments |
| PerformanceDetection.ViewportExtent | src/lib/hooks/usePerformanceDetection.ts:139-147 | `inner \|\| client`: the inner extent unless it is zero |
| PerformanceDetection.IsInViewport | src/lib/hooks/usePerformanceDetection.ts:139-147 | a rectangle is reported visible exactly when it lies inside the viewport on all four sides, the inner size falling back to the client size when it is 0 |
| PerformanceDetection.ObserverSettings | src/lib/hooks/usePerformanceDetection.ts:150-159 | the caller's threshold and root margin override 0.1 and "50px" |
| OptimizedThreeScene.GetSceneConfig | src/lib/hooks/useOptimizedThreeScene.ts:24-42 | the reduced scene exactly on a low-performance or mobile device, else the full one |
| OptimizedThreeScene.DueTimesFirst | src/lib/hooks/useOptimizedThreeScene.ts:45-62 | the first frame the limiter lets through is at least one interval after the last drawn frame |
| OptimizedThreeScene.DueTimesGaps | src/lib/hooks/useOptimizedThreeScene.ts:45-62 | consecutive frames the limiter lets through are at least one interval apart |
| OptimizedThreeScene.DueTimesLast | src/lib/hooks/useOptimizedThreeScene.ts:45-62 | the n-th frame let through comes at least n intervals after the last drawn frame |
| OptimizedThreeScene.DueTimesSpaced | src/lib/hooks/useOptimizedThreeScene.ts:45-62 | frames the limiter lets through are at least one frame interval apart, and the n-th comes at least n intervals after the last drawn frame |
| OptimizedThreeScene.DueTimesWithin | src/lib/hooks/useOptimizedThreeScene.ts:45-62 | a due frame is one of the callback times, so it respects any bound on them |
| OptimizedThreeScene.DueTimesPerWindow | src/lib/hooks/useOptimizedThreeScene.ts:45-62 | within a window of w ms, at most w / interval frames are drawn |
| OptimizedThreeScene.CreateObjects | src/lib/hooks/useOptimizedThreeScene.ts:105-148 | one mesh per object, box, sphere and cone in turn |
| OptimizedThreeScene.ColorInRange | src/lib/hooks/useOptimizedThreeScene.ts:152-163 | every colour component lies in [0.5, 1) |
| OptimizedThreeScene.SetTriple | src/lib/hooks/useOptimizedThreeScene.ts:152-163 | the three slots of one particle are written, all other slots unchanged |
| OptimizedThreeScene.CreateParticleBuffers | src/lib/hooks/useOptimizedThreeScene.ts:151-181 | both buffers have three slots per particle; slot 3j+c holds the c-th position or colour value drawn for particle j |
| OptimizedThreeScene.StoredColorInRange | src/lib/hooks/useOptimizedThreeScene.ts:153-162 | stored through any order-preserving rounding that keeps 0.5 and 1 (as the single-precision buffer does), a colour component lies in [0.5, 1] |
| OptimizedThreeScene.BuildScene | src/lib/hooks/useOptimizedThreeScene.ts:68-184 | one mesh per object in the box, sphere, cone cycle; antialias exactly on high performance; shadows per config; three buffer slots per particle; every stored colour in [0.5, 1) |
| OptimizedThreeScene.CancelRequest | src/lib/hooks/useOptimizedThreeScene.ts:208-210 | a request remains exactly when it was pending and has another id; nothing is added |
| OptimizedThreeScene.CancelRequestTwice | src/lib/hooks/useOptimizedThreeScene.ts:222-223 | cancelling an id a second time cancels nothing more |
| OptimizedThreeScene.Request | src/lib/hooks/useOptimizedThreeScene.ts:187-189 | the new request comes last, captured a visible scene, and its id is stored in `animationRef`; ids advance by one |
| OptimizedThreeScene.Cancel | src/lib/hooks/useOptimizedThreeScene.ts:208-210 | a request remains exactly when no id is stored or its id is not the stored one; `animationRef` keeps its value |
| OptimizedThreeScene.HideCancelsOnlyTheLast | src/lib/hooks/useOptimizedThreeScene.ts:206-225 | a commit that hides the scene removes exactly the request whose id `animationRef` holds, whether or not the initialisation cleanup ran first |
| OptimizedThreeScene.ShowStartsTwoLoops | src/lib/hooks/useOptimizedThreeScene.ts:186-225 | showing a built scene adds two requests, and `animationRef` holds only the second |
| OptimizedThreeScene.ShowThenHideLeavesALoop | src/lib/hooks/useOptimizedThreeScene.ts:186-225 | after showing and hiding again, the first loop the show started is still pending |
| OptimizedThreeScene.CommitKeepsCapturedVisible | src/lib/hooks/useOptimizedThreeScene.ts:186-225 | no commit adds a request whose closure captured a hidden scene |
| OptimizedThreeScene.RenderLoopChanged | src/lib/hooks/useOptimizedThreeScene.ts:42-62 | `renderLoop` is a new closure exactly when visibility, high performance or mobile changed |
| OptimizedThreeScene.InitReruns | src/lib/hooks/useOptimizedThreeScene.ts:216 | the initialisation effect re-runs exactly when `renderLoop` is new or WebGL support changed |
| OptimizedThreeScene.SceneLoop.constructor | src/lib/hooks/useOptimizedThreeScene.ts:13-21 | the first render: the detection hook's optimistic profile (fast, not mobile, no WebGL), nothing built, no request, ids from 1 |
| OptimizedThreeScene.SceneLoop.Init | src/lib/hooks/useOptimizedThreeScene.ts:65-216 | without canvas or WebGL nothing changes; otherwise the scene is built as `BuildScene` states, the listener and cleanup are installed, and a frame is requested exactly when visible |
| OptimizedThreeScene.SceneLoop.RerunInit | src/lib/hooks/useOptimizedThreeScene.ts:65-216 | the cleanup is installed exactly with canvas and WebGL, the scene is then built, and a frame is requested exactly when visible too |
| OptimizedThreeScene.SceneLoop.VisibilityEffect | src/lib/hooks/useOptimizedThreeScene.ts:218-225 | visible with a built scene: a new request; otherwise `Cancel` |
| OptimizedThreeScene.SceneLoop.RunEffects | src/lib/hooks/useOptimizedThreeScene.ts:65-225 | the frames after the effects are `CommitFrames` of the initialisation run and, when it re-runs, the visibility effect |
| OptimizedThreeScene.SceneLoop.Mount | src/lib/hooks/useOptimizedThreeScene.ts:65-225 | the first commit runs both effects; frames per `CommitFrames` |
| OptimizedThreeScene.SceneLoop.RenderLoop | src/lib/hooks/useOptimizedThreeScene.ts:45-62 | the fired request leaves; a closure that captured a hidden scene, or finds no scene, ends its loop; otherwise a frame is drawn exactly when a whole interval has passed, and the next frame is requested whatever the current visibility |
| OptimizedThreeScene.SceneLoop.Cleanup | src/lib/hooks/useOptimizedThreeScene.ts:206-215 | listener removed, only the request `animationRef` holds cancelled, renderer disposed, resize timeout cleared; nothing without an installed cleanup |
| OptimizedThreeScene.SceneLoop.Rerender | src/lib/hooks/useOptimizedThreeScene.ts:24-225 | the new profile and visibility are stored; when no dependency of the initialisation effect changed nothing else changes; otherwise its cleanup and new run, and the visibility effect when `renderLoop` is new, give the frames `CommitFrames` |
| OptimizedThreeScene.SceneLoop.OnResize | src/lib/hooks/useOptimizedThreeScene.ts:192-204 | a resize timeout is pending exactly when one was or the listener is installed |
| OptimizedThreeScene.SceneLoop.ResizeTimeoutFires | src/lib/hooks/useOptimizedThreeScene.ts:192-204 | the resize timeout is consumed |
| OptimizedThreeScene.DetectSlowDevice | src/lib/hooks/useOptimizedThreeScene.ts:13-225 | on a slow or mobile device mounting builds nothing, and the detection render builds the scene and starts two loops, ids 1 and 2, with `animationRef` 2 |
| OptimizedThreeScene.HiddenSceneKeepsDrawing | src/lib/hooks/useOptimizedThreeScene.ts:45-225 | after the scene is hidden one loop stays pending, and it still draws a frame |
| OptimizedThreeScene.UnmountLeavesAFrame | src/lib/hooks/useOptimizedThreeScene.ts:206-215 | after unmounting such a scene the loop with id 1 is still pending |
| PerformanceMonitor.KeepLast | src/components/common/PerformanceMonitor.tsx:161-164 | `slice(-n)`: the last min(len, n) entries, as a suffix |
| PerformanceMonitor.AppendToLog | src/components/common/PerformanceMonitor.tsx:161-164 | after an append the new entry is last, the log holds at most n entries, and the older ones kept are the newest of the old log in order |
| PerformanceMonitor.KeepLastAppend | src/components/common/PerformanceMonitor.tsx:118-121 | trimming after each append equals trimming once after all of them |
| PerformanceMonitor.FpsSeverity | src/components/common/PerformanceMonitor.tsx:133-137 | error exactly below 30 fps, warning exactly in [30, 45), nothing at 45 or more |
| PerformanceMonitor.MemorySeverity | src/components/common/PerformanceMonitor.tsx:139-143 | error exactly above 200 MiB, warning exactly in (100, 200] MiB, nothing otherwise |
| PerformanceMonitor.LoadTimeSeverity | src/components/common/PerformanceMonitor.tsx:145-149 | error exactly above 5000 ms, warning exactly in (2000, 5000] ms, nothing otherwise |
| PerformanceMonitor.FrameTimeSeverity | src/components/common/PerformanceMonitor.tsx:53-57 | error exactly above 33 ms, warning exactly in (16, 33] ms, nothing otherwise |
| PerformanceMonitor.CheckPerformanceWarnings | src/components/common/PerformanceMonitor.tsx:132-150 | at most three warnings, one per kind; a warning of a kind and severity is raised exactly when that metric's check gives that severity |
| PerformanceMonitor.BoundaryValuesAreQuiet | src/components/common/PerformanceMonitor.tsx:36-41 | exactly 100 MiB and exactly 2000 ms raise nothing: the thresholds are strict |
| PerformanceMonitor.SumBounds | src/components/common/PerformanceMonitor.tsx:169-171 | a sum of values within [lo, hi] lies within [n lo, n hi] |
| PerformanceMonitor.AverageMetrics | src/components/common/PerformanceMonitor.tsx:168-172 | null exactly for an empty history; otherwise each average times the count is the field's sum |
| PerformanceMonitor.AverageFpsWithinRange | src/components/common/PerformanceMonitor.tsx:168-172 | the average fps lies between the lowest and the highest sample |
| PerformanceMonitor.ErrorEvictedByNewerWarnings | src/components/common/PerformanceMonitor.tsx:197 | five newer non-error warnings push every error out of the log, so the red dot goes out |
| PerformanceMonitor.Monitor.constructor | src/components/common/PerformanceMonitor.tsx:26-33 | empty logs and zeroed refs |
| PerformanceMonitor.Monitor.AddWarning | src/components/common/PerformanceMonitor.tsx:153-165 | the warning is appended and the log is cut back to the last five |
| PerformanceMonitor.Monitor.AddWarnings | src/components/common/PerformanceMonitor.tsx:132-165 | adding the raised warnings one by one leaves the last five of the old log followed by all of them |
| PerformanceMonitor.Monitor.MeasureFrameTime | src/components/common/PerformanceMonitor.tsx:47-62 | the first frame only records its time; later frames record the frame time and add the severity it earns |
| PerformanceMonitor.Monitor.ScrollStart | src/components/common/PerformanceMonitor.tsx:75-77 | the scroll start time is now |
| PerformanceMonitor.Monitor.Scroll | src/components/common/PerformanceMonitor.tsx:89-92 | a scroll-end timeout is pending |
| PerformanceMonitor.Monitor.ScrollEnd | src/components/common/PerformanceMonitor.tsx:79-86 | the end time is stored; a scroll longer than 16 ms adds a warning, never an error; otherwise the log is unchanged |
| PerformanceMonitor.Monitor.TouchEnd | src/components/common/PerformanceMonitor.tsx:79-96 | `touchend` runs `handleScrollEnd` and leaves a pending scroll-end timeout pending |
| PerformanceMonitor.Monitor.ScrollTimeoutFires | src/components/common/PerformanceMonitor.tsx:79-92 | the timeout is consumed and `handleScrollEnd` runs |
| PerformanceMonitor.AppendTwice | src/components/common/PerformanceMonitor.tsx:161-164 | two entries appended in turn to a log of at least two slots are its last two |
| PerformanceMonitor.TouchScrollEndsTwice | src/components/common/PerformanceMonitor.tsx:79-96 | a slow touch scroll that also fired scroll events ends with two warnings, the touch end's then the timeout's, and no timeout left |
| PerformanceMonitor.Monitor.UpdateMetrics | src/components/common/PerformanceMonitor.tsx:108-125 | the sample (missing heap size read as 0) joins the last ten, and the log gains the sample's warnings, trimmed to five |
| LoadingTicks.Advance | src/components/common/Preloader.tsx:61-67 | a particle keeps its id and loses `decay` of life |
| LoadingTicks.Tick | src/components/common/Preloader.tsx:61-68 | no more particles than before, all alive |
| LoadingTicks.TickMembers | src/components/common/Preloader.tsx:61-68 | a particle is in the result exactly when it is the advanced form of one whose life exceeded `decay` |
| LoadingTicks.Ids | src/components/common/Preloader.tsx:47-57 | the ids, position by position |
| LoadingTicks.TickKeepsIdOrder | src/components/common/Preloader.tsx:61-68 | the survivors' ids are a subsequence of the old ids |
| LoadingTicks.SubsequenceOfTail | src/components/common/Preloader.tsx:61-68 | a subsequence of the tail is a subsequence of the whole |
| LoadingTicks.SubsequenceDropHead | src/components/common/Preloader.tsx:61-68 | dropping the first entry keeps a subsequence |
| LoadingTicks.TickKeepsIdsIncreasing | src/components/common/Preloader.tsx:61-68 | increasing ids stay increasing, so they stay distinct |
| LoadingTicks.SubsequenceKeepsIncreasing | src/components/common/Preloader.tsx:61-68 | a subsequence of an increasing list is increasing and does not start lower |
| LoadingTicks.Generate | src/components/common/Preloader.tsx:47-57 | `count` fresh particles, the i-th from draws 5i to 5i+4, with ids 0 to count-1 |
| LoadingTicks.FreshParticleLife | src/components/common/Preloader.tsx:54 | a fresh particle's life lies in [0, 100) |
| LoadingTicks.GeneratedIdsIncreasing | src/components/common/Preloader.tsx:47-57 | a fresh list has increasing ids |
| LoadingTicks.ParticleUpdate | src/components/common/Preloader.tsx:60-73 | below the threshold the regenerated list replaces the tick, otherwise the tick stands |
| LoadingTicks.NextProgress | src/components/common/Preloader.tsx:80-88 | at 100 or more the progress becomes exactly 100; below, it grows by at least 2 and less than span + 2 |
| LoadingTicks.ProgressBounded | src/components/common/Preloader.tsx:80-88 | progress stays in [0, 100 + span + 2) |
| LoadingTicks.ProgressReachesHundred | src/components/common/Preloader.tsx:80-88 | enough ticks reach exactly 100 |
| LoadingTicks.NextPhase | src/components/common/Preloader.tsx:90-92 | one step round the five phases |
| LoadingTicks.PhaseAfter | src/components/common/Preloader.tsx:90-92 | after n steps from phase p the phase is (p + n) mod 5 |
| Preloader.PreloaderView.constructor | src/components/common/Preloader.tsx:13-17 | the initial state, a fresh particle list and the running intervals and timer |
| Preloader.PreloaderView.ParticleEffectRuns | src/components/common/Preloader.tsx:46-76 | the interval is reinstalled with the current length captured, and the list is regenerated |
| Preloader.PreloaderView.ParticleIntervalFires | src/components/common/Preloader.tsx:60-73 | the list becomes `ParticleUpdate` with decay 0.5 and threshold 30 |
| Preloader.PreloaderView.ProgressIntervalFires | src/components/common/Preloader.tsx:80-88 | the progress becomes `NextProgress` with span 8, and the interval clears itself once 100 was reached |
| Preloader.PreloaderView.PhaseIntervalFires | src/components/common/Preloader.tsx:90-92 | the phase advances by `NextPhase` |
| Preloader.PreloaderView.CompleteTimerFires | src/components/common/Preloader.tsx:94-99 | complete, and `onComplete` is scheduled 1500 ms later |
| Preloader.PreloaderView.Skip | src/components/common/Preloader.tsx:108-116 | progress becomes 100 and completion is scheduled 500 ms later |
| Preloader.PreloaderView.TimerFires | src/components/common/Preloader.tsx:108-116 | the fired timeout leaves the pending list and does its action |
| Preloader.PreloaderView.MouseMove | src/components/common/Preloader.tsx:34-43 | the pointer relative to the container, or nothing without one |
| Preloader.PreloaderView.Unmount | src/components/common/Preloader.tsx:101-105 | intervals and completion timer cleared; skip timeouts stay |
| Preloader.PreloaderView.Renders | src/components/common/Preloader.tsx:118 | rendered exactly while not complete |
| Preloader.SkipRunsToCompletion | src/components/common/Preloader.tsx:108-116 | skip and its two timeouts complete the preloader, call `onComplete` once and leave no timeout pending |
| OptimizedPreloader.ConfigFor | src/components/common/OptimizedPreloader.tsx:34-41 | 3D needs a fast non-mobile device; backdrop filter needs support; 50 particles when fast, else 20; particles and mouse effects exactly when fast |
| OptimizedPreloader.ProgressLimit | src/components/common/OptimizedPreloader.tsx:102-110 | progress stays in [0, 110) on a fast device and [0, 114) otherwise |
| OptimizedPreloader.OptimizedPreloaderView.constructor | src/components/common/OptimizedPreloader.tsx:13-128 | the first render under the detection hook's optimistic profile: the config of a fast device, 50 particles generated with their interval, progress and phase intervals running, completion due at `duration` |
| OptimizedPreloader.OptimizedPreloaderView.ProfileChanged | src/components/common/OptimizedPreloader.tsx:33-128 | the config follows the new profile; an unchanged flag changes nothing else; a flipped flag restarts the timers with completion due `duration` after now, runs the particle interval exactly when fast, and regenerates the particles when fast or keeps them when slow |
| OptimizedPreloader.OptimizedPreloaderView.ParticleEffectRestarts | src/components/common/OptimizedPreloader.tsx:66-98 | the interval runs exactly when particles are enabled; enabled: regenerated with the old length captured; disabled: list and captured length kept |
| OptimizedPreloader.OptimizedPreloaderView.TimerEffectRestarts | src/components/common/OptimizedPreloader.tsx:101-128 | progress, phase and completion timers running, completion due `duration` after now |
| OptimizedPreloader.OptimizedPreloaderView.ParticleEffectRuns | src/components/common/OptimizedPreloader.tsx:66-98 | nothing when particles are disabled, else regenerate and capture the length |
| OptimizedPreloader.OptimizedPreloaderView.ParticleIntervalFires | src/components/common/OptimizedPreloader.tsx:82-95 | `ParticleUpdate` with the profile's decay and threshold particleCount / 2 |
| OptimizedPreloader.OptimizedPreloaderView.ProgressIntervalFires | src/components/common/OptimizedPreloader.tsx:102-110 | `NextProgress` with span 8 or 12; cleared once 100 was reached |
| OptimizedPreloader.OptimizedPreloaderView.PhaseIntervalFires | src/components/common/OptimizedPreloader.tsx:112-114 | the phase advances by `NextPhase` |
| OptimizedPreloader.OptimizedPreloaderView.CompleteTimerFires | src/components/common/OptimizedPreloader.tsx:116-121 | complete, with `onComplete` pending |
| OptimizedPreloader.OptimizedPreloaderView.OnCompleteTimerFires | src/components/common/OptimizedPreloader.tsx:118-120 | `onComplete` called once more |
| OptimizedPreloader.OptimizedPreloaderView.MouseMove | src/components/common/OptimizedPreloader.tsx:52-63 | the pointer is recorded only with mouse effects on and a container |
| OptimizedPreloader.OptimizedPreloaderView.Unmount | src/components/common/OptimizedPreloader.tsx:123-127 | intervals and completion timer cleared |
| OptimizedPreloader.OptimizedPreloaderView.Renders | src/components/common/OptimizedPreloader.tsx:132 | rendered exactly while not complete |
| OptimizedPreloader.SlowDeviceKeepsOptimisticParticles | src/components/common/OptimizedPreloader.tsx:13-128 | on a slow device, after detection particles are disabled and no particle interval runs, yet the 50 particles of the first render remain, and completion is due `duration` after detection |
| OptimizedServicesHero.ConfigFor | src/components/sections/OptimizedServicesHero.tsx:23-30 | 3D exactly when fast with WebGL and not mobile; the other effects exactly when fast; duration 0.8 or 0.5 |
| OptimizedServicesHero.SceneRequested | src/components/sections/OptimizedServicesHero.tsx:50 | the scene runs only for a visible section with 3D enabled, and always then |
| OptimizedServicesHero.ParallaxRange | src/components/sections/OptimizedServicesHero.tsx:58-60 | from 0% to 50% with parallax, else no movement |
| OptimizedServicesHero.TypeStep | src/components/sections/OptimizedServicesHero.tsx:68-72 | one more character, and the shown text stays the heading's prefix |
| OptimizedServicesHero.TypeSteps | src/components/sections/OptimizedServicesHero.tsx:64-82 | n steps show the first n characters; 21 steps show "Professional Services" |
| OptimizedServicesHero.Typewriter.constructor | src/components/sections/OptimizedServicesHero.tsx:16-18 | empty heading, typing, no timeouts |
| OptimizedServicesHero.Typewriter.RunEffect | src/components/sections/OptimizedServicesHero.tsx:67-82 | a typing timeout while characters remain, else a reset timeout is added |
| OptimizedServicesHero.Typewriter.TypeTimerFires | src/components/sections/OptimizedServicesHero.tsx:68-72 | the state takes `TypeStep` |
| OptimizedServicesHero.Typewriter.ResetTimerFires | src/components/sections/OptimizedServicesHero.tsx:74-80 | the heading is empty and typing again |
| ContactRoute.FirstIndex | src/app/api/contact/route.ts:17-23 | the first position of the character |
| ContactRoute.EmailCheckMatchesPattern | src/app/api/contact/route.ts:17-23 | the one-pass check accepts exactly the strings `[^\s@]+@[^\s@]+\.[^\s@]+` matches in full |
| ContactRoute.PatternMatchIsValid | src/app/api/contact/route.ts:17-23 | any decomposition into three parts passes the check |
| ContactRoute.Post | src/app/api/contact/route.ts:9-66 | unparsable body gives 500; a missing name, email or message gives 400 "Missing required fields"; 400 "Invalid email format" exactly when the three are present and the email fails; 200 with the thank-you message exactly when all pass |
| ContactRoute.CompanyAndServiceIgnored | src/app/api/contact/route.ts:9-52 | company and service never change the answer |
| ContactRoute.AcceptedEmails | src/app/api/contact/route.ts:17 | "a@b.c" and "a@b.c.d" match |
| ContactRoute.RejectedEmails | src/app/api/contact/route.ts:17 | "a@bc", "@b.c" and "a@@b.c" do not match |
| ContactSection.WithField | src/components/sections/Contact.tsx:184-189 | the named field takes the value, the other four keep theirs |
| ContactSection.WithFieldSameValueIsIdentity | src/components/sections/Contact.tsx:184-189 | writing a field's own value changes nothing |
| ContactSection.Settle | src/components/sections/Contact.tsx:146-182 | a thrown request is a network error; a 2xx answer is success with the server's message and an emptied form; any other answer is an error with the server's error or the fallback text, form kept |
| ContactSection.SubmitThroughRoute | src/components/sections/Contact.tsx:146-182 | posting a form to the route succeeds exactly when name and message are filled and the email matches; errors keep the form and show the route's message |
| ContactSection.ContactView.constructor | src/components/sections/Contact.tsx:12-23 | the empty form with "web-development", idle, not submitting |
| ContactSection.ContactView.HandleChange | src/components/sections/Contact.tsx:184-189 | the form takes `WithField` |
| ContactSection.ContactView.HandleFieldFocus | src/components/sections/Contact.tsx:191-193 | the focused field is recorded |
| ContactSection.ContactView.HandleFieldBlur | src/components/sections/Contact.tsx:195-197 | no field is focused |
| ContactSection.ContactView.BeginSubmit | src/components/sections/Contact.tsx:146-157 | submitting, status reset, and the body is the form |
| ContactSection.ContactView.FinishSubmit | src/components/sections/Contact.tsx:160-182 | status, message and form become `Settle` of the outcome; no longer submitting |
| Portfolio.CategoryId | src/lib/types.ts:10-18 | the category is one of "web", "mobile", "marketing" |
| Portfolio.CategoryIdInjective | src/lib/types.ts:10-18 | distinct categories have distinct ids |
| Portfolio.WithCategory | src/components/sections/Portfolio.tsx:384-391 | no more items than before, all of the requested category |
| Portfolio.WithCategoryMembers | src/components/sections/Portfolio.tsx:384-391 | an item is shown exactly when it is listed and of the category |
| Portfolio.WithCategoryKeepsOrder | src/components/sections/Portfolio.tsx:384-391 | the shown items come from increasing positions of the full list |
| Portfolio.CategoriesPartition | src/components/sections/Portfolio.tsx:67-72 | the three category filters split any list |
| Portfolio.ShowcaseCounts | src/components/sections/Portfolio.tsx:10-65 | six projects: three web, two mobile, one marketing |
| Portfolio.BadgeLabel | src/components/sections/Portfolio.tsx:336-337 | the badge text of each category |
| Portfolio.PortfolioView.constructor | src/components/sections/Portfolio.tsx:381-382 | "all" and every item |
| Portfolio.PortfolioView.HandleCategoryChange | src/components/sections/Portfolio.tsx:384-391 | the active category and its filtered items |
| Portfolio.PortfolioCard.constructor | src/components/sections/Portfolio.tsx:82-83 | not hovered, preview hidden |
| Portfolio.PortfolioCard.HandleMouseEnter | src/components/sections/Portfolio.tsx:264 | hovered |
| Portfolio.PortfolioCard.HandleMouseLeave | src/components/sections/Portfolio.tsx:241-245 | tilt reset, not hovered |
| Portfolio.PortfolioCard.Handle3DToggle | src/components/sections/Portfolio.tsx:247-254 | the preview flips; set-up is scheduled only when turning it on |
| Portfolio.PortfolioCard.SetupTimeoutFires | src/components/sections/Portfolio.tsx:247-254 | one scheduled set-up is consumed |
| ThemeContext.Toggle | src/contexts/ThemeContext.tsx:41-43 | light becomes dark, anything else light |
| ThemeContext.ToggleTwice | src/contexts/ThemeContext.tsx:41-43 | two toggles restore exactly the two real themes and always yield one of them |
| ThemeContext.ThemeOnMount | src/contexts/ThemeContext.tsx:19-32 | a non-empty saved value is used unchecked, else dark |
| ThemeContext.ThemeProvider.constructor | src/contexts/ThemeContext.tsx:16-17 | dark, unmounted, the page and storage as found |
| ThemeContext.ThemeProvider.RendersChildren | src/contexts/ThemeContext.tsx:50-52 | children only once mounted |
| ThemeContext.ThemeProvider.MountEffect | src/contexts/ThemeContext.tsx:19-32 | mounted with `ThemeOnMount` of the saved value, and the dark class matches |
| ThemeContext.ThemeProvider.SyncEffect | src/contexts/ThemeContext.tsx:34-39 | once mounted the dark class and storage follow the theme; before, nothing changes |
| ThemeContext.ThemeProvider.ToggleTheme | src/contexts/ThemeContext.tsx:41-43 | the theme takes `Toggle` |
| ThemeContext.ThemeProvider.SetTheme | src/contexts/ThemeContext.tsx:45-47 | the theme is the given one |
| ThemeContext.MountThenSync | src/contexts/ThemeContext.tsx:19-39 | after mount and sync the page and storage reflect the saved theme |
| ThemeContext.UseTheme | src/contexts/ThemeContext.tsx:61-67 | outside a provider the error, inside it the value |
| Footer.Newsletter.constructor | src/components/layout/Footer.tsx:23-25 | empty address, not subscribed, not client-side |
| Footer.Newsletter.ClientMount | src/components/layout/Footer.tsx:28-30 | client-side |
| Footer.Newsletter.RendersFooter | src/components/layout/Footer.tsx:61-63 | the footer only on the client |
| Footer.Newsletter.EmailChanged | src/components/layout/Footer.tsx:200 | the address is the input |
| Footer.Newsletter.Submit | src/components/layout/Footer.tsx:32-39 | a blank address changes nothing; any other subscribes, clears the field and schedules the reset |
| Footer.Newsletter.ResetFires | src/components/layout/Footer.tsx:32-39 | the confirmation is withdrawn |
| Footer.ParticleAt | src/components/layout/Footer.tsx:76-86 | offsets within [20, 92] by [30, 75] percent; tints cycle with i mod 3 |
| Footer.ParticlesSpreadOut | src/components/layout/Footer.tsx:76-86 | particles move strictly right and down, and neighbours differ in tint |

## Left out

- Three.js, framer-motion and the markup: scenes, meshes, materials, motion values and styling.
  Only what the hooks decide about them is modelled.
- Browser probes are parameters of the methods that use them: the user agent, the WebGL
  context, `CSS.supports`, `performance.memory`, the battery API, the window size, timestamps and
  `Date.now()`.
- OptimizedThreeScene.ColorInRange, OptimizedThreeScene.BuildScene,
  OptimizedThreeScene.SceneLoop.Init: the colour bound [0.5, 1) holds of the exact values. The
  `Float32Array` rounds each value to single precision, and a value just below 1 can become 1;
  `StoredColorInRange` gives the bound [0.5, 1] that survives.
- OptimizedThreeScene.SceneLoop: `sceneRef`, `rendererRef` and the camera stored on the renderer
  are one field, `sceneBuilt`. One initialisation run sets them together and nothing resets
  them, so the render loop's test of the camera always passes once the scene is built.
- Timers, intervals and animation frames are events the caller triggers. Their periods are kept
  as constants, and the model does not order events by time.
- Warning messages of the performance monitor are left out, because they are formatted numbers
  (`toFixed`). A warning is its kind, severity and time.
- PerformanceMonitor.Monitor.AddWarnings: the warnings of one sample share one timestamp. The
  source calls `Date.now()` for each, within the same synchronous call.
- The monitor's expand toggle, the hover visibility, and the `NODE_ENV` switch that hides it
  outside development are presentation only.
- The load time the monitor reads (`performance.timing`) is a parameter.
- ContactSection.ContactView.BeginSubmit, ContactSection.SubmitThroughRoute, Footer.Newsletter.Submit:
  the models start at the submit handlers. The browser's form validation runs before them and
  is not modelled: the contact form marks name, email and message `required` and the email
  field `type="email"` (src/components/sections/Contact.tsx, lines 347, 364, 369 and 439), and
  its fields and button are `disabled` while submitting; the newsletter form has a
  `type="email"` input (src/components/layout/Footer.tsx, lines 189-200). These stop a submit
  with an empty required field or a malformed address before the handler runs, so the route's
  "Missing required fields" answer is reached only by posting to it directly.
- OptimizedThreeScene.SceneLoop.RenderLoop: a request stores the visibility its closure
  captured but not its `getSceneConfig`; the method reads the current configuration. The two
  agree in every run of the hook: before detection nothing is built, so no loop exists, and the
  detection hook publishes its profile once. After a second profile change the model would
  give a surviving loop the new frame interval.
- ContactSection.ContactView.HandleChange: only the five form fields are named. An input with
  any other `name` would add a key, and that is not modelled.
- ContactRoute.Post: JSON body fields are strings or absent. Non-string JSON values, the 1 s
  artificial delay and the development logging are not modelled.
- LoadingTicks.FreshParticleLife: only the life of a fresh particle is bounded. Its position and
  velocity ranges are not stated.
- The progress shown on screen (`Math.floor`) and the phase captions are display only.
- Mouse tilt normalisation of the portfolio card, and its mouse-move handler, are left out. They
  are arithmetic on pointer coordinates feeding motion values.
- The `mobile` and `general` tables of the configuration are modelled as data. Nothing in the
  core reads them beyond `shouldEnableFeature` and `getAnimationConfig`.
- The `isExpanded` and hover states of the other components are presentation.
- The files that only compose these pieces (pages, layout, header, navigation, buttons, cards,
  the logo, the typography guide) are not part of this model.
