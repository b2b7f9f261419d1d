/** The development performance monitor: threshold checks on each metrics sample and on every
    animation frame and scroll, a log of the last five warnings, a history of the last ten
    samples, the averages over that history and the error indicator. Warning texts (formatted
    numbers) are not modelled; a warning is its kind, severity and time. */
module PerformanceMonitor {
  import opened JsValues

  datatype Metrics = Metrics(
    fps: real, memory: real, loadTime: real, animationFrameTime: real, scrollPerformance: real, timestamp: real)

  datatype WarningKind = Fps | Memory | LoadTime | AnimationFrame | ScrollPerformance

  datatype Severity = Warn | Error

  datatype Warning = Warning(kind: WarningKind, severity: Severity, timestamp: real)

  const MaxWarnings: nat := 5
  const MaxSamples: nat := 10

  const MiB: real := 1024.0 * 1024.0

  // ---------------------------------------------------------------------------
  // Bounded logs

  /** `s.slice(-n)` for a positive `n`: the last `n` entries, or all of them. */
  function KeepLast<T>(s: seq<T>, n: nat): (r: seq<T>)
    requires n > 0
    ensures |r| == if |s| <= n then |s| else n
    ensures r == s[|s| - |r|..]
  {
    if |s| <= n then s else s[|s| - n..]
  }

  /** Appending one entry to a bounded log: the entry is last, the log stays within `n`, and
      the entries kept before it are the newest of the old log, in order. */
  lemma AppendToLog<T>(log: seq<T>, x: T, n: nat)
    requires n > 0
    ensures var r := KeepLast(log + [x], n);
            && 0 < |r| <= n && r[|r| - 1] == x
            && r[..|r| - 1] == log[|log| - (|r| - 1)..]
            && (|log| < n ==> r == log + [x])
  {
    var r := KeepLast(log + [x], n);
    assert (log + [x])[|log + [x]| - |r|..][..|r| - 1] == log[|log| - (|r| - 1)..];
  }

  /** Trimming after every append is the same as trimming once at the end. */
  lemma {:induction false} KeepLastAppend<T>(s: seq<T>, t: seq<T>, n: nat)
    requires n > 0
    ensures KeepLast(KeepLast(s, n) + t, n) == KeepLast(s + t, n)
  {
    var k := KeepLast(s, n);
    assert s == s[..|s| - |k|] + k;
    assert s + t == s[..|s| - |k|] + (k + t);
  }

  // ---------------------------------------------------------------------------
  // Thresholds

  /** The fps check: below 30 an error, below 45 a warning. */
  function FpsSeverity(fps: real): (r: Option<Severity>)
    ensures r == Some(Error) <==> fps < 30.0
    ensures r == Some(Warn) <==> 30.0 <= fps < 45.0
    ensures r == None <==> fps >= 45.0
  {
    if fps < 30.0 then Some(Error) else if fps < 45.0 then Some(Warn) else None
  }

  /** The memory check, strict: above 200 MiB an error, above 100 MiB a warning. */
  function MemorySeverity(memory: real): (r: Option<Severity>)
    ensures r == Some(Error) <==> memory > 200.0 * MiB
    ensures r == Some(Warn) <==> 100.0 * MiB < memory <= 200.0 * MiB
    ensures r == None <==> memory <= 100.0 * MiB
  {
    if memory > 200.0 * MiB then Some(Error) else if memory > 100.0 * MiB then Some(Warn) else None
  }

  /** The load-time check, strict: above 5000 ms an error, above 2000 ms a warning. */
  function LoadTimeSeverity(loadTime: real): (r: Option<Severity>)
    ensures r == Some(Error) <==> loadTime > 5000.0
    ensures r == Some(Warn) <==> 2000.0 < loadTime <= 5000.0
    ensures r == None <==> loadTime <= 2000.0
  {
    if loadTime > 5000.0 then Some(Error) else if loadTime > 2000.0 then Some(Warn) else None
  }

  /** The frame-time check, strict: above 33 ms an error, above 16 ms a warning. */
  function FrameTimeSeverity(frameTime: real): (r: Option<Severity>)
    ensures r == Some(Error) <==> frameTime > 33.0
    ensures r == Some(Warn) <==> 16.0 < frameTime <= 33.0
    ensures r == None <==> frameTime <= 16.0
  {
    if frameTime > 33.0 then Some(Error) else if frameTime > 16.0 then Some(Warn) else None
  }

  function WarningIf(kind: WarningKind, s: Option<Severity>, now: real): seq<Warning> {
    if s.Some? then [Warning(kind, s.value, now)] else []
  }

  /** `checkPerformanceWarnings`: the warnings one sample raises, in the order fps, memory,
      load time. */
  function CheckPerformanceWarnings(m: Metrics, now: real): (r: seq<Warning>)
    ensures |r| <= 3
    ensures forall i, j :: 0 <= i < j < |r| ==> r[i].kind != r[j].kind
    ensures forall s :: Warning(Fps, s, now) in r <==> FpsSeverity(m.fps) == Some(s)
    ensures forall s :: Warning(Memory, s, now) in r <==> MemorySeverity(m.memory) == Some(s)
    ensures forall s :: Warning(LoadTime, s, now) in r <==> LoadTimeSeverity(m.loadTime) == Some(s)
    ensures forall w :: w in r ==> w.kind in {Fps, Memory, LoadTime} && w.timestamp == now
  {
    WarningIf(Fps, FpsSeverity(m.fps), now)
    + WarningIf(Memory, MemorySeverity(m.memory), now)
    + WarningIf(LoadTime, LoadTimeSeverity(m.loadTime), now)
  }

  /** Exactly 100 MiB of memory and exactly 2000 ms of load time raise nothing. */
  lemma BoundaryValuesAreQuiet(fps: real, animationFrameTime: real, scroll: real, now: real)
    requires fps >= 45.0
    ensures CheckPerformanceWarnings(Metrics(fps, 100.0 * MiB, 2000.0, animationFrameTime, scroll, now), now) == []
  {
  }

  /** `memoryInfo?.usedJSHeapSize || 0`. */
  function MemoryOf(usedJSHeapSize: Option<real>): real {
    if usedJSHeapSize.None? then 0.0 else usedJSHeapSize.value
  }

  // ---------------------------------------------------------------------------
  // Averages

  /** `reduce((sum, x) => sum + x, 0)`: a left fold. */
  function Sum(xs: seq<real>): real {
    if xs == [] then 0.0 else Sum(xs[..|xs| - 1]) + xs[|xs| - 1]
  }

  /** The sum of values within [lo, hi] lies within [n * lo, n * hi]. */
  lemma {:induction false} SumBounds(xs: seq<real>, lo: real, hi: real)
    requires forall i :: 0 <= i < |xs| ==> lo <= xs[i] <= hi
    ensures |xs| as real * lo <= Sum(xs) <= |xs| as real * hi
  {
    if xs != [] {
      SumBounds(xs[..|xs| - 1], lo, hi);
    }
  }

  datatype Averages = Averages(fps: real, memory: real, animationFrameTime: real)

  function FpsOf(ms: seq<Metrics>): seq<real> { seq(|ms|, i requires 0 <= i < |ms| => ms[i].fps) }
  function MemoryOfAll(ms: seq<Metrics>): seq<real> { seq(|ms|, i requires 0 <= i < |ms| => ms[i].memory) }
  function FrameTimeOf(ms: seq<Metrics>): seq<real> {
    seq(|ms|, i requires 0 <= i < |ms| => ms[i].animationFrameTime)
  }

  /** `averageMetrics`: `null` for an empty history, else the mean of each field. */
  function AverageMetrics(ms: seq<Metrics>): (r: Option<Averages>)
    ensures r.None? <==> ms == []
    ensures r.Some? ==> r.value.fps * |ms| as real == Sum(FpsOf(ms))
    ensures r.Some? ==> r.value.memory * |ms| as real == Sum(MemoryOfAll(ms))
    ensures r.Some? ==> r.value.animationFrameTime * |ms| as real == Sum(FrameTimeOf(ms))
  {
    if ms == [] then None
    else
      var n := |ms| as real;
      Some(Averages(Sum(FpsOf(ms)) / n, Sum(MemoryOfAll(ms)) / n, Sum(FrameTimeOf(ms)) / n))
  }

  /** The average fps lies between the lowest and the highest sample. */
  lemma AverageFpsWithinRange(ms: seq<Metrics>, lo: real, hi: real)
    requires ms != [] && forall i :: 0 <= i < |ms| ==> lo <= ms[i].fps <= hi
    ensures lo <= AverageMetrics(ms).value.fps <= hi
  {
    var n := |ms| as real;
    SumBounds(FpsOf(ms), lo, hi);
    var avg := AverageMetrics(ms).value.fps;
    assert lo * n <= avg * n <= hi * n;
  }

  // ---------------------------------------------------------------------------
  // The error indicator

  /** The red dot: some retained warning is an error. */
  predicate HasErrorDot(warnings: seq<Warning>) {
    exists i :: 0 <= i < |warnings| && warnings[i].severity == Error
  }

  /** Five newer warnings that are not errors push every older error out of the log, and the
      dot goes out. */
  lemma ErrorEvictedByNewerWarnings(log: seq<Warning>, newer: seq<Warning>)
    requires |newer| >= MaxWarnings && forall i :: 0 <= i < |newer| ==> newer[i].severity == Warn
    ensures !HasErrorDot(KeepLast(log + newer, MaxWarnings))
  {
    var r := KeepLast(log + newer, MaxWarnings);
    forall i | 0 <= i < |r| ensures r[i].severity == Warn {
      assert r[i] == newer[|newer| - MaxWarnings + i];
    }
  }

  // ---------------------------------------------------------------------------
  // The component's state

  class Monitor {
    var metrics: seq<Metrics>
    var warnings: seq<Warning>
    var frameTime: real
    var lastFrameTime: real
    var scrollStartTime: real
    var scrollEndTime: real
    var scrollTimeoutPending: bool

    predicate Valid()
      reads this
    {
      |metrics| <= MaxSamples && |warnings| <= MaxWarnings
    }

    constructor ()
      ensures Valid() && metrics == [] && warnings == []
      ensures frameTime == 0.0 && lastFrameTime == 0.0 && scrollStartTime == 0.0 && scrollEndTime == 0.0
      ensures !scrollTimeoutPending
    {
      metrics, warnings := [], [];
      frameTime, lastFrameTime, scrollStartTime, scrollEndTime := 0.0, 0.0, 0.0, 0.0;
      scrollTimeoutPending := false;
    }

    /** `addWarning`: the functional update keeping the last five. */
    method AddWarning(kind: WarningKind, severity: Severity, now: real)
      requires Valid()
      modifies this`warnings
      ensures Valid()
      ensures warnings == KeepLast(old(warnings) + [Warning(kind, severity, now)], MaxWarnings)
    {
      warnings := KeepLast(warnings + [Warning(kind, severity, now)], MaxWarnings);
    }

    /** `measureFrameTime` at the frame `timestamp`; the first frame only records its time. */
    method MeasureFrameTime(timestamp: real, now: real)
      requires Valid()
      modifies this`frameTime, this`lastFrameTime, this`warnings
      ensures Valid() && lastFrameTime == timestamp
      ensures old(lastFrameTime) <= 0.0 ==> warnings == old(warnings) && frameTime == old(frameTime)
      ensures old(lastFrameTime) > 0.0 ==>
                && frameTime == timestamp - old(lastFrameTime)
                && warnings == KeepLast(old(warnings) + WarningIf(AnimationFrame, FrameTimeSeverity(frameTime), now),
                                        MaxWarnings)
    {
      if lastFrameTime > 0.0 {
        var ft := timestamp - lastFrameTime;
        frameTime := ft;
        var severity := FrameTimeSeverity(ft);
        if severity.Some? {
          AddWarning(AnimationFrame, severity.value, now);
        }
      }
      lastFrameTime := timestamp;
    }

    method ScrollStart(now: real)
      modifies this`scrollStartTime
      ensures scrollStartTime == now
    {
      scrollStartTime := now;
    }

    /** A scroll event replaces the pending scroll-end timeout. */
    method Scroll()
      modifies this`scrollTimeoutPending
      ensures scrollTimeoutPending
    {
      scrollTimeoutPending := true;
    }

    /** `handleScrollEnd`: a scroll slower than 16 ms raises a warning, never an error. */
    method ScrollEnd(now: real)
      requires Valid()
      modifies this`scrollEndTime, this`warnings
      ensures Valid() && scrollEndTime == now
      ensures now - scrollStartTime > 16.0 ==>
                warnings == KeepLast(old(warnings) + [Warning(ScrollPerformance, Warn, now)], MaxWarnings)
      ensures now - scrollStartTime <= 16.0 ==> warnings == old(warnings)
    {
      scrollEndTime := now;
      var scrollTime := scrollEndTime - scrollStartTime;
      if scrollTime > 16.0 {
        AddWarning(ScrollPerformance, Warn, now);
      }
    }

    /** A touch end calls `handleScrollEnd` directly; a scroll-end timeout already pending
        stays pending. */
    method TouchEnd(now: real)
      requires Valid()
      modifies this`scrollEndTime, this`warnings
      ensures Valid() && scrollEndTime == now
      ensures now - scrollStartTime > 16.0 ==>
                warnings == KeepLast(old(warnings) + [Warning(ScrollPerformance, Warn, now)], MaxWarnings)
      ensures now - scrollStartTime <= 16.0 ==> warnings == old(warnings)
    {
      ScrollEnd(now);
    }

    /** The 100 ms scroll-end timeout fires and calls `handleScrollEnd`. */
    method ScrollTimeoutFires(now: real)
      requires Valid() && scrollTimeoutPending
      modifies this`scrollEndTime, this`warnings, this`scrollTimeoutPending
      ensures Valid() && scrollEndTime == now && !scrollTimeoutPending
      ensures now - scrollStartTime > 16.0 ==>
                warnings == KeepLast(old(warnings) + [Warning(ScrollPerformance, Warn, now)], MaxWarnings)
      ensures now - scrollStartTime <= 16.0 ==> warnings == old(warnings)
    {
      scrollTimeoutPending := false;
      ScrollEnd(now);
    }

    /** `updateMetrics`, once a second: a new sample joins the last ten, then each warning it
        raises is added in turn. */
    method UpdateMetrics(fps: real, usedJSHeapSize: Option<real>, loadTime: real, now: real)
      returns (sample: Metrics)
      requires Valid()
      modifies this`metrics, this`warnings
      ensures Valid()
      ensures sample == Metrics(fps, MemoryOf(usedJSHeapSize), loadTime, frameTime,
                                scrollEndTime - scrollStartTime, now)
      ensures metrics == KeepLast(old(metrics) + [sample], MaxSamples)
      ensures warnings == KeepLast(old(warnings) + CheckPerformanceWarnings(sample, now), MaxWarnings)
    {
      sample := Metrics(fps, MemoryOf(usedJSHeapSize), loadTime, frameTime, scrollEndTime - scrollStartTime, now);
      metrics := KeepLast(metrics + [sample], MaxSamples);
      AddWarnings(CheckPerformanceWarnings(sample, now), now);
    }

    /** The warnings one sample raises, each added in turn with `addWarning`. */
    method AddWarnings(raised: seq<Warning>, now: real)
      requires Valid() && forall i :: 0 <= i < |raised| ==> raised[i].timestamp == now
      modifies this`warnings
      ensures Valid()
      ensures warnings == KeepLast(old(warnings) + raised, MaxWarnings)
    {
      var i := 0;
      while i < |raised|
        invariant 0 <= i <= |raised|
        invariant Valid()
        invariant warnings == KeepLast(old(warnings) + raised[..i], MaxWarnings)
      {
        var w := raised[i];
        assert w == Warning(w.kind, w.severity, now);
        AddWarning(w.kind, w.severity, now);
        KeepLastAppend(old(warnings) + raised[..i], [w], MaxWarnings);
        assert old(warnings) + raised[..i + 1] == (old(warnings) + raised[..i]) + [w];
        i := i + 1;
      }
      assert raised[..i] == raised;
    }
  }

  /** Two entries appended to a log bounded by `n >= 2` are its last two. */
  lemma AppendTwice<T>(log: seq<T>, x: T, y: T, n: nat)
    requires n >= 2
    ensures var r := KeepLast(KeepLast(log + [x], n) + [y], n);
            |r| >= 2 && r[|r| - 2..] == [x, y]
  {
    var once := KeepLast(log + [x], n);
    AppendToLog(log, x, n);
    AppendToLog(once, y, n);
    var r := KeepLast(once + [y], n);
    assert r[|r| - 2] == once[|once| - 1];
  }

  /** A touch scroll that also fires `scroll` events ends twice: the touch end measures it, and
      the scroll-end timeout it left pending measures it again, so a slow scroll is logged as
      two warnings. */
  method TouchScrollEndsTwice(m: Monitor, start: real, touchEnd: real, timeoutAt: real)
    requires m.Valid() && touchEnd - start > 16.0 && timeoutAt - start > 16.0
    modifies m`scrollStartTime, m`scrollEndTime, m`warnings, m`scrollTimeoutPending
    ensures m.Valid() && !m.scrollTimeoutPending && |m.warnings| >= 2
    ensures m.warnings[|m.warnings| - 2..] ==
              [Warning(ScrollPerformance, Warn, touchEnd), Warning(ScrollPerformance, Warn, timeoutAt)]
  {
    m.ScrollStart(start);
    m.Scroll();
    ghost var beforeTouch := m.warnings;
    m.TouchEnd(touchEnd);
    m.ScrollTimeoutFires(timeoutAt);
    AppendTwice(beforeTouch, Warning(ScrollPerformance, Warn, touchEnd), Warning(ScrollPerformance, Warn, timeoutAt), MaxWarnings);
  }
}
