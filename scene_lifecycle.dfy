/** The life cycle of the `useThreeScene` hook: the scene, camera and
    renderer references, the initialisation with its capped linear retry,
    the throttled animation loop, stop, cleanup and the resize handler.
    Timers and animation frames are explicit: a pending retry timer is a
    field, the browser's frame handle counter is a field, and the browser
    delivering a frame or firing the timer is a method call. */
module SceneLifecycle {
  import opened Common
  import opened SceneUtils

  /** Math.min's cap on the retry delay, in milliseconds. */
  const MaxRetryDelay: int := 500

  /** 1000 / targetFPS with targetFPS = 60. */
  const FrameTime: real := 1000.0 / 60.0

  /** `Math.min(retryDelay * (retryCount + 1), 500)`. */
  function RetryDelay(retryDelay: int, retryCount: int): (ms: int)
    ensures ms <= MaxRetryDelay
    ensures retryDelay * (retryCount + 1) <= MaxRetryDelay ==> ms == retryDelay * (retryCount + 1)
    ensures retryDelay * (retryCount + 1) > MaxRetryDelay ==> ms == MaxRetryDelay
  {
    MinInt(retryDelay * (retryCount + 1), MaxRetryDelay)
  }

  /** The delay grows with the attempt number, linearly until the cap. */
  lemma RetryDelayMonotone(retryDelay: int, c1: int, c2: int)
    requires retryDelay >= 0 && c1 <= c2
    ensures RetryDelay(retryDelay, c1) <= RetryDelay(retryDelay, c2)
  {
    assert retryDelay * (c2 + 1) - retryDelay * (c1 + 1) == retryDelay * (c2 - c1);
    assert retryDelay * (c2 - c1) >= 0;
  }

  /** With the defaults (50 ms, 10 attempts) the delays are 50, 100, ...,
      500, the last three capped. */
  lemma DefaultDelays()
    ensures RetryDelay(50, 0) == 50 && RetryDelay(50, 8) == 450
    ensures RetryDelay(50, 9) == 500 && RetryDelay(50, 10) == 500
  {
  }

  /** The retry test of initializeScene. */
  predicate ShouldRetry(d: Size, retryCount: int, retryAttempts: int) {
    d.width <= 300.0 && d.height <= 200.0 && retryCount < retryAttempts
  }

  /** Since the valid dimensions are floored at 300 by 200, a retry happens
      exactly when the element measured exactly at the floor on both sides
      and attempts are left; at retryCount = retryAttempts it never does. */
  lemma RetryExactlyAtTheFloor(e: ElementSizes, retryCount: int, retryAttempts: int)
    ensures ShouldRetry(ValidDimensions(e), retryCount, retryAttempts)
      <==> ValidDimensions(e) == Size(MinWidth, MinHeight) && retryCount < retryAttempts
    ensures retryCount >= retryAttempts ==> !ShouldRetry(ValidDimensions(e), retryCount, retryAttempts)
  {
    SmallDimensionsAreTheFloor(e);
  }

  /** A pending setTimeout for `initializeScene(nextCount)`. */
  datatype RetryTimer = RetryTimer(delay: int, nextCount: nat)

  /** The times at which the loop's lastTime was set are at least one frame
      time apart, and the first is at least one frame time after 0. */
  predicate Throttled(ticks: seq<real>) {
    && (forall i, j :: 0 <= i < j < |ticks| ==> ticks[i] + FrameTime <= ticks[j])
    && (forall i :: 0 <= i < |ticks| ==> FrameTime <= ticks[i])
  }

  class SceneLifecycle {
    // the hook's options
    const hasContainer: bool
    const preset: PresetName
    const custom: SceneConfig
    const retryAttempts: int
    const retryDelay: int
    const enableResizeObserver: bool

    /** sceneRef, cameraRef and rendererRef, which are set and cleared together. */
    var refs: Option<CompleteScene>
    /** animationIdRef: the handle of the loop's pending frame. */
    var animationId: Option<nat>
    /** animationCallbackRef, a callback named by a number. */
    var callback: Option<nat>
    /** initializationRetryRef. */
    var retryTimer: Option<RetryTimer>
    /** resizeObserverRef is set. */
    var observing: bool

    /** The current loop's lastTime and the values it has taken. */
    var lastTime: real
    var ticks: seq<real>
    /** The callbacks run by the loop, in order. */
    var runs: seq<nat>
    /** The browser's animation frame handle counter; handles start at 1. */
    var frameCounter: nat

    predicate Valid()
      reads this
    {
      && (animationId.Some? ==> 0 < animationId.value <= frameCounter)
      && (retryTimer.Some? ==> 1 <= retryTimer.value.nextCount <= retryAttempts
                               && retryTimer.value.delay <= MaxRetryDelay)
      && Throttled(ticks)
      && (|ticks| == 0 ==> lastTime == 0.0)
      && (|ticks| > 0 ==> lastTime == ticks[|ticks| - 1])
    }

    constructor (hasContainer0: bool, preset0: PresetName, custom0: SceneConfig,
                 retryAttempts0: int, retryDelay0: int, enableResizeObserver0: bool)
      ensures hasContainer == hasContainer0 && preset == preset0 && custom == custom0
      ensures retryAttempts == retryAttempts0 && retryDelay == retryDelay0
      ensures enableResizeObserver == enableResizeObserver0
      ensures refs.None? && animationId.None? && callback.None? && retryTimer.None? && !observing
      ensures ticks == [] && runs == [] && frameCounter == 0
      ensures Valid()
    {
      hasContainer, preset, custom := hasContainer0, preset0, custom0;
      retryAttempts, retryDelay := retryAttempts0, retryDelay0;
      enableResizeObserver := enableResizeObserver0;
      refs, animationId, callback, retryTimer, observing := None, None, None, None, false;
      lastTime, ticks, runs, frameCounter := 0.0, [], [], 0;
    }

    /** isInitialized: scene, camera and renderer are all set. */
    predicate IsInitialized()
      reads this
    {
      refs.Some?
    }

    /** stopAnimation: cancel the pending frame and drop the callback. */
    method StopAnimation()
      modifies this`animationId, this`callback
      ensures animationId.None? && callback.None?
      ensures old(Valid()) ==> Valid()
    {
      animationId := None;
      callback := None;
    }

    /** cleanup: stop the animation, clear the retry timer, disconnect the
        resize observer, dispose of and forget the scene. */
    method Cleanup()
      modifies this`animationId, this`callback, this`retryTimer, this`observing, this`refs
      ensures animationId.None? && callback.None? && retryTimer.None? && !observing
      ensures refs.None? && !IsInitialized()
      ensures old(Valid()) ==> Valid()
    {
      StopAnimation();
      retryTimer := None;
      observing := false;
      refs := None;
    }

    /** initializeScene(retryCount): `e` is what the container measures now
        and `buildOk` whether building the scene throws nothing. */
    method InitializeScene(retryCount: nat, e: ElementSizes, buildOk: bool, devicePixelRatio: real)
      returns (ok: bool)
      modifies this`animationId, this`callback, this`retryTimer, this`observing, this`refs
      ensures !hasContainer ==> !ok && unchanged(this)
      ensures hasContainer && ShouldRetry(ValidDimensions(e), retryCount, retryAttempts) ==>
        && !ok
        && retryTimer == Some(RetryTimer(RetryDelay(retryDelay, retryCount), retryCount + 1))
        && refs == old(refs) && animationId == old(animationId) && callback == old(callback)
        && observing == old(observing)
      ensures hasContainer && !ShouldRetry(ValidDimensions(e), retryCount, retryAttempts) ==>
        && ok == buildOk
        && animationId.None? && callback.None? && retryTimer.None? && !observing
        && refs == (if buildOk then Some(SetupCompleteScene(preset, custom, e, devicePixelRatio)) else None)
      ensures ok ==> IsInitialized()
      ensures old(Valid()) ==> Valid()
    {
      if !hasContainer {
        return false;
      }
      var d := ValidDimensions(e);
      if d.width <= 300.0 && d.height <= 200.0 && retryCount < retryAttempts {
        retryTimer := Some(RetryTimer(MinInt(retryDelay * (retryCount + 1), 500), retryCount + 1));
        return false;
      }
      Cleanup();
      if !buildOk {
        return false;
      }
      refs := Some(SetupCompleteScene(preset, custom, e, devicePixelRatio));
      return true;
    }

    /** The retry timer fires: the spent timer is forgotten and
        initializeScene runs with the count it was scheduled with. */
    method FireRetry(e: ElementSizes, buildOk: bool, devicePixelRatio: real) returns (ok: bool)
      modifies this`animationId, this`callback, this`retryTimer, this`observing, this`refs
      ensures old(retryTimer).None? ==> !ok && unchanged(this)
      ensures old(retryTimer).Some? && hasContainer
              && ShouldRetry(ValidDimensions(e), old(retryTimer).value.nextCount, retryAttempts) ==>
        && !ok
        && retryTimer == Some(RetryTimer(RetryDelay(retryDelay, old(retryTimer).value.nextCount),
                                         old(retryTimer).value.nextCount + 1))
      ensures old(retryTimer).Some? && hasContainer
              && !ShouldRetry(ValidDimensions(e), old(retryTimer).value.nextCount, retryAttempts) ==>
        && ok == buildOk && retryTimer.None?
        && refs == (if buildOk then Some(SetupCompleteScene(preset, custom, e, devicePixelRatio)) else None)
      ensures old(Valid()) ==> Valid()
      ensures old(Valid()) && old(retryTimer).Some? && old(retryTimer).value.nextCount == retryAttempts && hasContainer ==>
        ok == buildOk && retryTimer.None?
    {
      if retryTimer.None? {
        return false;
      }
      var next := retryTimer.value.nextCount;
      retryTimer := None;
      RetryExactlyAtTheFloor(e, next, retryAttempts);
      ok := InitializeScene(next, e, buildOk, devicePixelRatio);
    }

    /** requestAnimationFrame: the next handle. */
    method RequestFrame()
      modifies this`frameCounter, this`animationId
      ensures frameCounter == old(frameCounter) + 1 && animationId == Some(frameCounter)
    {
      frameCounter := frameCounter + 1;
      animationId := Some(frameCounter);
    }

    /** startAnimation: cancel the previous loop, store the callback, start
        a new loop with lastTime 0 and request its first frame. */
    method StartAnimation(cb: nat)
      modifies this`animationId, this`callback, this`lastTime, this`ticks, this`frameCounter
      ensures callback == Some(cb) && lastTime == 0.0 && ticks == []
      ensures frameCounter == old(frameCounter) + 1 && animationId == Some(frameCounter)
      ensures old(Valid()) ==> Valid()
    {
      animationId := None;
      callback := Some(cb);
      lastTime := 0.0;
      ticks := [];
      RequestFrame();
    }

    /** The browser delivers frame `id` at time `t`. A cancelled or stale
        handle is never delivered to the live closure and changes nothing;
        the live one runs the callback only when a frame time has passed
        since lastTime, moves lastTime only then, and requests the next frame. */
    method Frame(id: nat, t: real)
      modifies this`animationId, this`lastTime, this`ticks, this`runs, this`frameCounter
      ensures old(animationId) != Some(id) ==> unchanged(this)
      ensures old(animationId) == Some(id) && t - old(lastTime) >= FrameTime ==>
        && lastTime == t && ticks == old(ticks) + [t]
        && runs == old(runs) + (if callback.Some? then [callback.value] else [])
      ensures old(animationId) == Some(id) && t - old(lastTime) < FrameTime ==>
        lastTime == old(lastTime) && ticks == old(ticks) && runs == old(runs)
      ensures old(animationId) == Some(id) ==>
        frameCounter == old(frameCounter) + 1 && animationId == Some(frameCounter)
      ensures old(Valid()) ==> Valid()
    {
      if animationId != Some(id) {
        return;
      }
      if t - lastTime >= FrameTime {
        if callback.Some? {
          runs := runs + [callback.value];
        }
        lastTime := t;
        ticks := ticks + [t];
      }
      RequestFrame();
    }

    /** The resize-observer effect: observe the container when enabled. */
    method ObserveResize()
      modifies this`observing
      ensures observing == (old(observing) || (enableResizeObserver && hasContainer))
    {
      if enableResizeObserver && hasContainer {
        observing := true;
      }
    }

    /** resize: only with a container, camera and renderer; then the
        camera's aspect and the renderer's size follow the element. */
    method Resize(e: ElementSizes)
      modifies this`refs
      ensures !(hasContainer && old(refs).Some?) ==> refs == old(refs)
      ensures hasContainer && old(refs).Some? ==>
        && refs.Some? && refs.value.config == old(refs).value.config
        && refs.value.renderer.size == ValidDimensions(e)
        && refs.value.camera.aspect * ValidDimensions(e).height == ValidDimensions(e).width
        && refs.value.background == old(refs).value.background
        && refs.value.renderer.pixelRatio == old(refs).value.renderer.pixelRatio
        && refs.value.renderer.shadowsEnabled == old(refs).value.renderer.shadowsEnabled
        && refs.value.camera.(aspect := 0.0) == old(refs).value.camera.(aspect := 0.0)
      ensures old(Valid()) ==> Valid()
    {
      if !hasContainer || refs.None? {
        return;
      }
      var d := ValidDimensions(e);
      var s := refs.value;
      refs := Some(s.(camera := s.camera.(aspect := d.width / d.height),
                      renderer := s.renderer.(size := d)));
    }

    /** The auto-start effect's frame: initialise and, when that worked
        and a callback is stored, start the loop. A successful
        initialisation has just run cleanup, which dropped the callback,
        so this never starts a loop. */
    method AutoStart(e: ElementSizes, buildOk: bool, devicePixelRatio: real) returns (ok: bool)
      modifies this`animationId, this`callback, this`retryTimer, this`observing, this`refs,
               this`lastTime, this`ticks, this`frameCounter
      ensures !hasContainer ==> !ok && unchanged(this)
      ensures hasContainer && ShouldRetry(ValidDimensions(e), 0, retryAttempts) ==>
        && !ok
        && retryTimer == Some(RetryTimer(RetryDelay(retryDelay, 0), 1))
        && refs == old(refs) && animationId == old(animationId) && callback == old(callback)
        && observing == old(observing)
      ensures hasContainer && !ShouldRetry(ValidDimensions(e), 0, retryAttempts) ==>
        && ok == buildOk
        && animationId.None? && callback.None? && retryTimer.None? && !observing
        && refs == (if buildOk then Some(SetupCompleteScene(preset, custom, e, devicePixelRatio)) else None)
      ensures ok ==> IsInitialized() && animationId.None? && callback.None?
      ensures frameCounter == old(frameCounter) && lastTime == old(lastTime) && ticks == old(ticks)
      ensures old(Valid()) ==> Valid()
    {
      ok := InitializeScene(0, e, buildOk, devicePixelRatio);
      if ok && callback.Some? {
        // startAnimation(animationCallbackRef.current) is unreachable here
        assert false;
      }
    }
  }

  /** A client run: the first measurement is at the floor so a retry is
      scheduled; the timer then fires with a larger element and the scene
      is built; a loop started afterwards runs its callback on the first
      frame that is late enough, and cleanup leaves nothing initialised. */
  method RetryThenBuild(custom: SceneConfig, small: ElementSizes, large: ElementSizes)
    requires ValidDimensions(small) == Size(MinWidth, MinHeight)
    requires ValidDimensions(large).width > MinWidth
  {
    var hook := new SceneLifecycle(true, Industrial, custom, 10, 50, true);
    var ok := hook.InitializeScene(0, small, true, 1.0);
    assert !ok && hook.retryTimer == Some(RetryTimer(50, 1));
    ok := hook.FireRetry(large, true, 1.0);
    assert ok && hook.IsInitialized();
    hook.StartAnimation(7);
    var id := hook.animationId.value;
    hook.Frame(id, 5.0);
    assert hook.runs == [];
    id := hook.animationId.value;
    hook.Frame(id, 20.0);
    assert hook.runs == [7];
    hook.Cleanup();
    assert !hook.IsInitialized();
  }
}
