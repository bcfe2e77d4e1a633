/** The performance monitor of the `useOptimizedThreeScene` hook: a FIFO
    window of the last frame times, a rounded average frame rate, a
    three-level quality state machine with hysteresis, the table that maps a
    quality level to renderer settings, and the flags of the animation loop.
    The clock (`performance.now()`), the visibility observer and
    `requestAnimationFrame` are inputs: each frame is an explicit call with
    its timestamp and the id the browser handed out. */
module AdaptiveQuality {
  import opened Common

  datatype Quality = Low | Medium | High

  /** JavaScript's frame rate: `1000 / avg` is Infinity when the average
      frame time is 0, and Math.round keeps it Infinity. */
  datatype Fps = Finite(n: int) | Infinite

  /** The frame-time window holds at most this many entries. */
  const WindowSize: nat := 60

  /** fps < threshold, with Infinity below nothing. */
  predicate Below(fps: Fps, threshold: real) {
    fps.Finite? && (fps.n as real) < threshold
  }

  /** fps > threshold, with Infinity above everything. */
  predicate Above(fps: Fps, threshold: real) {
    fps.Infinite? || (fps.n as real) > threshold
  }

  /** `Math.round`: halves round towards +infinity. */
  function Round(x: real): (r: int)
    ensures x - 0.5 < r as real <= x + 0.5
  {
    (x + 0.5).Floor
  }

  /** The `reduce((a, b) => a + b, 0)` over the window. */
  function Sum(s: seq<real>): real
  {
    if s == [] then 0.0 else Sum(s[..|s| - 1]) + s[|s| - 1]
  }

  lemma {:induction false} SumNonNegative(s: seq<real>)
    requires forall i :: 0 <= i < |s| ==> s[i] >= 0.0
    ensures Sum(s) >= 0.0
  {
    if s != [] {
      SumNonNegative(s[..|s| - 1]);
    }
  }

  lemma {:induction false} SumOfConstant(s: seq<real>, d: real)
    requires forall i :: 0 <= i < |s| ==> s[i] == d
    ensures Sum(s) == (|s| as real) * d
  {
    if s != [] {
      SumOfConstant(s[..|s| - 1], d);
    }
  }

  /** `frameTimes.push(d)` followed by the `shift()` that drops the oldest
      entry once the window is over its size: the newest entries, ending
      with d. */
  function PushFrameTime(ts: seq<real>, d: real): (w: seq<real>)
    ensures |ts| <= WindowSize ==> |w| == MinInt(|ts| + 1, WindowSize)
    ensures 0 < |w| <= |ts| + 1
    ensures w == (ts + [d])[|ts| + 1 - |w|..]
    ensures w[|w| - 1] == d
  {
    var pushed := ts + [d];
    if |pushed| > WindowSize then pushed[1..] else pushed
  }

  /** The frame rate of a non-empty window: round(1000 / mean). */
  function WindowFps(window: seq<real>): (fps: Fps)
    requires |window| > 0
  {
    var avg := Sum(window) / (|window| as real);
    if avg == 0.0 then Infinite else Finite(Round(1000.0 / avg))
  }

  /** A window of equal frame times d > 0 reports round(1000 / d). */
  lemma SteadyFrameRate(window: seq<real>, d: real)
    requires |window| > 0 && d > 0.0
    requires forall i :: 0 <= i < |window| ==> window[i] == d
    ensures WindowFps(window) == Finite(Round(1000.0 / d))
  {
    SumOfConstant(window, d);
    assert Sum(window) / (|window| as real) == d;
  }

  /** The adaptation rule: below 70% of the target and not already low,
      drop to low (below 50%) or medium; otherwise, above 90% and not
      already high, go to high; otherwise keep the level. */
  function NextQuality(fps: Fps, q: Quality, targetFps: real): (r: Quality)
    ensures q == Low ==> r != Medium
    ensures r == Low ==> q == Low || Below(fps, targetFps * 0.5)
    ensures r == Medium ==> q == Medium || (Below(fps, targetFps * 0.7) && !Below(fps, targetFps * 0.5))
    ensures r == High ==> q == High || (Above(fps, targetFps * 0.9) && !(Below(fps, targetFps * 0.7) && q != Low))
    ensures !Below(fps, targetFps * 0.7) && !Above(fps, targetFps * 0.9) ==> r == q
    ensures Below(fps, targetFps * 0.7) && Below(fps, targetFps * 0.5) && q != Low ==> r == Low
    ensures Below(fps, targetFps * 0.7) && q != Low && !Below(fps, targetFps * 0.5) ==> r == Medium
    ensures !(Below(fps, targetFps * 0.7) && q != Low) && Above(fps, targetFps * 0.9) && q != High ==> r == High
  {
    if Below(fps, targetFps * 0.7) && q != Low then
      (if Below(fps, targetFps * 0.5) then Low else Medium)
    else if Above(fps, targetFps * 0.9) && q != High then
      High
    else
      q
  }

  /** Once low, the level leaves low only for high, and only above 90% of a
      positive target. */
  lemma LowLeavesOnlyToHigh(fps: Fps, targetFps: real)
    requires targetFps > 0.0
    ensures NextQuality(fps, Low, targetFps) == Low || NextQuality(fps, Low, targetFps) == High
    ensures NextQuality(fps, Low, targetFps) == High <==> Above(fps, targetFps * 0.9)
  {
  }

  /** Hysteresis settles at once: at a steady frame rate and a
      non-negative target, a second step keeps the level the first chose. */
  lemma SteadyFpsSettles(fps: Fps, q: Quality, targetFps: real)
    requires targetFps >= 0.0
    ensures NextQuality(fps, NextQuality(fps, q, targetFps), targetFps) == NextQuality(fps, q, targetFps)
  {
  }

  datatype ShadowMap = ShadowsOff | BasicShadows | PcfSoftShadows

  /** What applyQualitySettings writes into the renderer. */
  datatype RendererSettings = RendererSettings(pixelRatio: real, shadows: ShadowMap)

  /** The quality table's pixel-ratio cap. */
  function PixelRatioCap(q: Quality): real {
    match q
    case Low => 1.0
    case Medium => 1.5
    case High => 2.0
  }

  /** The quality table's shadow setting. */
  function ShadowsFor(q: Quality): ShadowMap {
    match q
    case Low => ShadowsOff
    case Medium => BasicShadows
    case High => PcfSoftShadows
  }

  /** The renderer settings for a quality level on a device whose pixel
      ratio is devicePixelRatio. */
  function SettingsFor(q: Quality, devicePixelRatio: real): (s: RendererSettings)
    ensures s.pixelRatio <= devicePixelRatio && s.pixelRatio <= PixelRatioCap(q)
    ensures s.pixelRatio == devicePixelRatio || s.pixelRatio == PixelRatioCap(q)
    ensures s.shadows == ShadowsFor(q)
  {
    RendererSettings(Min(devicePixelRatio, PixelRatioCap(q)), ShadowsFor(q))
  }

  function Rank(q: Quality): nat {
    match q
    case Low => 0
    case Medium => 1
    case High => 2
  }

  /** The table is monotone: a higher level never lowers the pixel-ratio
      cap, and shadows are on exactly above low. */
  lemma QualityTableMonotone(a: Quality, b: Quality, dpr: real)
    requires Rank(a) <= Rank(b)
    ensures PixelRatioCap(a) <= PixelRatioCap(b)
    ensures SettingsFor(a, dpr).pixelRatio <= SettingsFor(b, dpr).pixelRatio
    ensures (ShadowsFor(a) != ShadowsOff) <==> a != Low
  {
  }

  /** The options of the hook the monitor reads. */
  datatype MonitorOptions = MonitorOptions(
    enablePerformanceMonitoring: bool,
    targetFps: real,
    adaptiveQuality: bool,
    pauseWhenHidden: bool,
    devicePixelRatio: real)

  const DefaultOptions := MonitorOptions(true, 60.0, true, true, 1.0)

  class PerformanceMonitor {
    const options: MonitorOptions

    var frameTimes: seq<real>
    var lastFrameTime: real
    var fps: Fps
    var quality: Quality
    var isVisible: bool
    /** The pending requestAnimationFrame id, if any. */
    var animationId: Option<nat>
    /** How many times the animation callback has run. */
    var callbackRuns: nat
    var hasScene: bool
    var hasCamera: bool
    var hasRenderer: bool
    /** The settings last written into the renderer. */
    var rendererSettings: Option<RendererSettings>

    predicate Valid()
      reads this
    {
      && |frameTimes| <= WindowSize
      && (rendererSettings.Some? ==> hasRenderer)
    }

    constructor (opts: MonitorOptions, now: real)
      ensures options == opts && Valid()
      ensures frameTimes == [] && lastFrameTime == now
      ensures fps == Finite(60) && quality == High && isVisible
      ensures animationId == None && callbackRuns == 0
      ensures !hasScene && !hasCamera && !hasRenderer && rendererSettings == None
    {
      options := opts;
      frameTimes := [];
      lastFrameTime := now;
      fps := Finite(60);
      quality := High;
      isVisible := true;
      animationId := None;
      callbackRuns := 0;
      hasScene, hasCamera, hasRenderer := false, false, false;
      rendererSettings := None;
    }

    /** The intersection observer's callback. */
    method SetVisible(visible: bool)
      modifies this`isVisible
      ensures isVisible == visible
    {
      isVisible := visible;
    }

    /** applyQualitySettings: without a renderer nothing happens; otherwise
        the table entry for the current quality is written. */
    method ApplyQualitySettings()
      requires Valid()
      modifies this`rendererSettings
      ensures Valid()
      ensures hasRenderer ==> rendererSettings == Some(SettingsFor(quality, options.devicePixelRatio))
      ensures !hasRenderer ==> rendererSettings == old(rendererSettings)
    {
      if !hasRenderer {
        return;
      }
      rendererSettings := Some(SettingsFor(quality, options.devicePixelRatio));
    }

    /** updatePerformanceMetrics at time `now`, followed by the effect that
        re-applies the quality settings when the level changed. */
    method UpdatePerformanceMetrics(now: real)
      requires Valid()
      modifies this
      ensures Valid()
      ensures !options.enablePerformanceMonitoring ==> unchanged(this)
      ensures options.enablePerformanceMonitoring ==>
        && lastFrameTime == now
        && frameTimes == PushFrameTime(old(frameTimes), now - old(lastFrameTime))
        && fps == WindowFps(frameTimes)
        && quality == (if options.adaptiveQuality then NextQuality(fps, old(quality), options.targetFps) else old(quality))
        && rendererSettings == (if quality != old(quality) && hasRenderer
                                then Some(SettingsFor(quality, options.devicePixelRatio))
                                else old(rendererSettings))
      ensures old(quality) == Low ==> quality != Medium
      ensures isVisible == old(isVisible) && animationId == old(animationId) && callbackRuns == old(callbackRuns)
      ensures hasScene == old(hasScene) && hasCamera == old(hasCamera) && hasRenderer == old(hasRenderer)
    {
      if !options.enablePerformanceMonitoring {
        return;
      }
      var deltaTime := now - lastFrameTime;
      lastFrameTime := now;
      frameTimes := PushFrameTime(frameTimes, deltaTime);
      fps := WindowFps(frameTimes);

      var previous := quality;
      if options.adaptiveQuality {
        quality := NextQuality(fps, quality, options.targetFps);
      }
      if quality != previous {
        ApplyQualitySettings();
      }
    }

    /** The scene build of initializeScene: no container, or a build that
        throws, gives false; otherwise the three objects are stored and the
        quality settings are applied. */
    method InitializeScene(hasContainer: bool, buildSucceeds: bool) returns (ok: bool)
      requires Valid()
      modifies this`hasScene, this`hasCamera, this`hasRenderer, this`rendererSettings
      ensures Valid()
      ensures ok <==> hasContainer && buildSucceeds
      ensures ok ==> hasScene && hasCamera && hasRenderer
      ensures ok ==> rendererSettings == Some(SettingsFor(quality, options.devicePixelRatio))
      ensures !ok ==> hasScene == old(hasScene) && hasCamera == old(hasCamera)
      ensures !ok ==> hasRenderer == old(hasRenderer) && rendererSettings == old(rendererSettings)
    {
      if !hasContainer || !buildSucceeds {
        return false;
      }
      hasScene, hasCamera, hasRenderer := true, true, true;
      ApplyQualitySettings();
      return true;
    }

    /** startAnimation: a no-op while a frame is already requested;
        otherwise the first frame is requested. */
    method StartAnimation(frameId: nat)
      modifies this`animationId
      ensures old(animationId).Some? ==> animationId == old(animationId)
      ensures old(animationId).None? ==> animationId == Some(frameId)
    {
      if animationId.Some? {
        return;
      }
      animationId := Some(frameId);
    }

    /** One run of the loop body when the requested frame fires: while
        hidden with pauseWhenHidden, only the next frame is requested;
        otherwise metrics are updated and the callback runs first. */
    method Frame(now: real, nextFrameId: nat)
      requires Valid() && animationId.Some?
      modifies this
      ensures Valid()
      ensures animationId == Some(nextFrameId)
      ensures !isVisible && options.pauseWhenHidden ==>
        && callbackRuns == old(callbackRuns)
        && frameTimes == old(frameTimes) && lastFrameTime == old(lastFrameTime)
        && fps == old(fps) && quality == old(quality)
      ensures !isVisible && options.pauseWhenHidden ==> rendererSettings == old(rendererSettings)
      ensures !(!isVisible && options.pauseWhenHidden) ==> callbackRuns == old(callbackRuns) + 1
      ensures !(!isVisible && options.pauseWhenHidden) && !options.enablePerformanceMonitoring ==>
        && frameTimes == old(frameTimes) && lastFrameTime == old(lastFrameTime)
        && fps == old(fps) && quality == old(quality) && rendererSettings == old(rendererSettings)
      ensures !(!isVisible && options.pauseWhenHidden) && options.enablePerformanceMonitoring ==>
        && lastFrameTime == now
        && frameTimes == PushFrameTime(old(frameTimes), now - old(lastFrameTime))
        && fps == WindowFps(frameTimes)
        && quality == (if options.adaptiveQuality then NextQuality(fps, old(quality), options.targetFps) else old(quality))
        && rendererSettings == (if quality != old(quality) && hasRenderer
                                then Some(SettingsFor(quality, options.devicePixelRatio))
                                else old(rendererSettings))
      ensures isVisible == old(isVisible)
      ensures hasScene == old(hasScene) && hasCamera == old(hasCamera) && hasRenderer == old(hasRenderer)
    {
      if !isVisible && options.pauseWhenHidden {
        animationId := Some(nextFrameId);
        return;
      }
      UpdatePerformanceMetrics(now);
      callbackRuns := callbackRuns + 1;
      animationId := Some(nextFrameId);
    }

    /** stopAnimation: cancel the pending frame, if any. */
    method StopAnimation()
      modifies this`animationId
      ensures animationId == None
    {
      if animationId.Some? {
        animationId := None;
      }
    }

    /** cleanup: stop the loop and drop the scene, camera and renderer. */
    method Cleanup()
      requires Valid()
      modifies this`animationId, this`hasScene, this`hasCamera, this`hasRenderer, this`rendererSettings
      ensures Valid()
      ensures animationId == None && !hasScene && !hasCamera && !hasRenderer && rendererSettings == None
    {
      StopAnimation();
      hasScene, hasCamera, hasRenderer := false, false, false;
      rendererSettings := None;
    }
  }
}
