/** The two Avalonia controls that drive the benchmark: a surface that draws
    through SkiaSharp and one that draws through the native scene. Each keeps
    its pacing and failure fields and updates them event by event; every
    handler is proved to move the fields the way the matching transition of
    the pacing state machine does, and to keep that machine's invariant.

    The host's top level, its render loop and the drawing context are
    parameters: whether a top level exists, the lease the context offers, and
    the exception a foreign call throws, if any. */
module Surfaces {
  import opened Wrappers
  import opened Scene
  import opened Pacing
  import NativeScene

  /** The lines a frame adds to the error stream. */
  function Written(line: Option<string>): seq<string> {
    if line.Some? then [line.value] else []
  }

  /** The control that renders with SkiaSharp on a leased canvas. */
  class MotionMarkSurface {
    /** The coerced Complexity property. */
    var complexity: int
    var useMultithreadedRendering: bool
    var frameRequested: bool
    var isAttached: bool
    var lastFrameTimestamp: Option<int>
    var statsAccumulatorMs: real
    var statsFrameCount: int
    var renderFailed: bool
    var lastRenderError: Option<string>
    /** Callbacks the top level holds for this control. */
    var pendingCallbacks: nat
    /** Lines written to the error stream. */
    var errorLog: seq<string>

    function State(): PacingState
      reads this
    {
      PacingState(isAttached, frameRequested, lastFrameTimestamp, statsAccumulatorMs,
                  statsFrameCount, renderFailed, lastRenderError, pendingCallbacks)
    }

    ghost predicate Valid()
      reads this
    {
      && SingleChain(State())
      && MinComplexity <= complexity <= MaxComplexity
    }

    /** A new control: level 8, multithreading unless in a browser, detached.
        In a browser the flag's change runs the toggle handler, which leaves a
        detached control as it is. */
    constructor (isBrowser: bool)
      ensures Valid() && State() == Initial
      ensures complexity == DefaultComplexity && useMultithreadedRendering == !isBrowser
      ensures errorLog == []
    {
      complexity := DefaultComplexity;
      useMultithreadedRendering := !isBrowser;
      frameRequested := false;
      isAttached := false;
      lastFrameTimestamp := None;
      statsAccumulatorMs := 0.0;
      statsFrameCount := 0;
      renderFailed := false;
      lastRenderError := None;
      pendingCallbacks := 0;
      errorLog := [];
    }

    /** Setting Complexity stores the value clamped to [0, 24]. */
    method SetComplexity(value: int)
      requires Valid()
      modifies this`complexity
      ensures Valid() && complexity == Clamp(value, MinComplexity, MaxComplexity)
    {
      complexity := Clamp(value, MinComplexity, MaxComplexity);
    }

    /** A changed flag forgets the last failure and asks for a frame. */
    method SetUseMultithreadedRendering(value: bool, hasTopLevel: bool)
      requires Valid()
      modifies this`useMultithreadedRendering, this`renderFailed, this`lastRenderError,
               this`frameRequested, this`pendingCallbacks
      ensures Valid() && useMultithreadedRendering == value
      ensures State() == if value != old(useMultithreadedRendering)
                         then ToggleMultithreading(old(State()), hasTopLevel)
                         else old(State())
    {
      if value == useMultithreadedRendering {
        return;
      }
      useMultithreadedRendering := value;
      renderFailed := false;
      lastRenderError := None;
      RequestNextFrame(hasTopLevel);
    }

    method OnAttachedToVisualTree(hasTopLevel: bool)
      requires Valid()
      modifies this`isAttached, this`frameRequested, this`pendingCallbacks
      ensures Valid() && State() == Attach(old(State()), hasTopLevel)
    {
      isAttached := true;
      RequestNextFrame(hasTopLevel);
    }

    /** Resets the pacing fields; the request flag stays with the callback
        the top level still holds (see DetachKeepingRequest). */
    method OnDetachedFromVisualTree()
      requires Valid()
      modifies this`isAttached, this`lastFrameTimestamp, this`statsAccumulatorMs, this`statsFrameCount
      ensures Valid() && State() == DetachKeepingRequest(old(State()))
    {
      isAttached := false;
      lastFrameTimestamp := None;
      statsAccumulatorMs := 0.0;
      statsFrameCount := 0;
    }

    method RequestNextFrame(hasTopLevel: bool)
      modifies this`frameRequested, this`pendingCallbacks
      ensures State() == Pacing.RequestNextFrame(old(State()), hasTopLevel)
    {
      if !isAttached || frameRequested {
        return;
      }
      if !hasTopLevel {
        return;
      }
      frameRequested := true;
      pendingCallbacks := pendingCallbacks + 1;
    }

    /** The top level delivers a held callback. The managed scene's element
        count labels the statistics. */
    method OnAnimationFrame(timestamp: int, hasTopLevel: bool, elementCount: int)
      returns (stats: Option<FrameStats>)
      requires Valid() && pendingCallbacks > 0
      modifies this`frameRequested, this`pendingCallbacks, this`lastFrameTimestamp,
               this`statsAccumulatorMs, this`statsFrameCount
      ensures Valid()
      ensures FrameResult(State(), stats) ==
        AnimationFrame(old(State()), timestamp, hasTopLevel, complexity, elementCount)
    {
      AnimationFrameKeepsSingleChain(State(), timestamp, hasTopLevel, complexity, elementCount);
      frameRequested := false;
      pendingCallbacks := pendingCallbacks - 1;
      stats := None;
      if !isAttached {
        return;
      }
      if lastFrameTimestamp.Some? {
        var deltaMs := DeltaMs(timestamp, lastFrameTimestamp.value);
        if deltaMs > 0.0 && deltaMs < OutlierLimitMs {
          statsAccumulatorMs := statsAccumulatorMs + deltaMs;
          statsFrameCount := statsFrameCount + 1;
          if statsAccumulatorMs >= StatsWindowMs && statsFrameCount > 0 {
            var averageFrameMs := statsAccumulatorMs / statsFrameCount as real;
            var fps := if averageFrameMs > 0.0 then 1000.0 / averageFrameMs else 0.0;
            stats := Some(FrameStats(complexity, elementCount, averageFrameMs, fps));
            statsAccumulatorMs := 0.0;
            statsFrameCount := 0;
          }
        }
      }
      lastFrameTimestamp := Some(timestamp);
      if !renderFailed {
        RequestNextFrame(hasTopLevel);
      }
    }

    /** One frame on the draw target: an empty target does nothing, a missing
        lease feature or canvas marks the failure, a foreign call that throws
        is logged and marks the failure, and a drawn frame clears it. */
    method RenderFrame(target: DrawTarget, lease: Lease, fault: Option<Failure>)
      returns (line: Option<string>)
      requires Valid()
      modifies this`renderFailed, this`lastRenderError, this`errorLog
      ensures Valid()
      ensures (State(), line) == AfterRender(old(State()), ManagedOutcome(target, lease, fault))
      ensures errorLog == old(errorLog) + Written(line)
    {
      line := None;
      if target.pixelWidth <= 0 || target.pixelHeight <= 0 {
        return;
      }
      if target.destWidth <= 0.0 || target.destHeight <= 0.0 {
        return;
      }
      if lease.NoLeaseFeature? || lease.canvas.None? {
        renderFailed := true;
        return;
      }
      match fault {
        case Some(e) =>
          line := LogRenderError("rendering frame", e);
          renderFailed := true;
        case None =>
          renderFailed := false;
      }
    }

    /** Writes the failure unless it repeats the last line written. */
    method LogRenderError(stage: string, e: Failure) returns (line: Option<string>)
      modifies this`lastRenderError, this`errorLog
      ensures (State(), line) == Pacing.LogRenderError(old(State()), ErrorMessage("MotionMarkSurface", stage, e))
      ensures errorLog == old(errorLog) + Written(line)
    {
      var message := ErrorMessage("MotionMarkSurface", stage, e);
      if lastRenderError == Some(message) {
        return None;
      }
      lastRenderError := Some(message);
      errorLog := errorLog + [message];
      line := Some(message);
    }
  }

  /** The control that renders the native scene on the canvas handle. */
  class MotionMarkNativeSurface {
    const scene: NativeScene.MotionMarkNativeScene
    /** The coerced Complexity property. */
    var complexity: int
    var useMultithreadedRendering: bool
    var frameRequested: bool
    var isAttached: bool
    var lastFrameTimestamp: Option<int>
    var statsAccumulatorMs: real
    var statsFrameCount: int
    var renderFailed: bool
    var lastRenderError: Option<string>
    /** Callbacks the top level holds for this control. */
    var pendingCallbacks: nat
    /** Lines written to the error stream. */
    var errorLog: seq<string>

    function State(): PacingState
      reads this
    {
      PacingState(isAttached, frameRequested, lastFrameTimestamp, statsAccumulatorMs,
                  statsFrameCount, renderFailed, lastRenderError, pendingCallbacks)
    }

    /** The control's level is the scene's, and the scene is released only
        by the control's finalizer. */
    ghost predicate Valid()
      reads this, scene
    {
      && SingleChain(State())
      && scene.Valid()
      && !scene.disposed
      && scene.complexity == complexity
    }

    constructor (isBrowser: bool)
      ensures Valid() && State() == Initial && fresh(scene)
      ensures complexity == DefaultComplexity && useMultithreadedRendering == !isBrowser
      ensures scene.elements == [] && errorLog == []
    {
      scene := new NativeScene.MotionMarkNativeScene();
      complexity := DefaultComplexity;
      useMultithreadedRendering := !isBrowser;
      frameRequested := false;
      isAttached := false;
      lastFrameTimestamp := None;
      statsAccumulatorMs := 0.0;
      statsFrameCount := 0;
      renderFailed := false;
      lastRenderError := None;
      pendingCallbacks := 0;
      errorLog := [];
    }

    /** Setting Complexity clamps it to [0, 24]; a changed level is passed
        to the scene, which resizes its chain to the level's count. */
    method SetComplexity(value: int, rolls: seq<Roll>)
      requires Valid() && ValidRolls(rolls)
      requires Clamp(value, MinComplexity, MaxComplexity) != complexity ==>
        |rolls| >= ComputeElementCount(Clamp(value, MinComplexity, MaxComplexity))
      modifies this`complexity, scene
      ensures Valid() && State() == old(State())
      ensures complexity == Clamp(value, MinComplexity, MaxComplexity)
      ensures complexity == old(complexity) ==> scene.elements == old(scene.elements)
      ensures complexity != old(complexity) ==>
        scene.elements == Resized(old(scene.elements), ComputeElementCount(complexity), rolls)
    {
      var clamped := Clamp(value, MinComplexity, MaxComplexity);
      if clamped == complexity {
        return;
      }
      complexity := clamped;
      scene.SetComplexity(complexity, rolls);
    }

    method SetUseMultithreadedRendering(value: bool, hasTopLevel: bool)
      requires Valid()
      modifies this`useMultithreadedRendering, this`renderFailed, this`lastRenderError,
               this`frameRequested, this`pendingCallbacks
      ensures Valid() && useMultithreadedRendering == value
      ensures State() == if value != old(useMultithreadedRendering)
                         then ToggleMultithreading(old(State()), hasTopLevel)
                         else old(State())
    {
      if value == useMultithreadedRendering {
        return;
      }
      useMultithreadedRendering := value;
      renderFailed := false;
      lastRenderError := None;
      RequestNextFrame(hasTopLevel);
    }

    /** Attaching hands the current level to the scene, which already has it,
        and asks for a frame. */
    method OnAttachedToVisualTree(hasTopLevel: bool)
      requires Valid()
      modifies this`isAttached, this`frameRequested, this`pendingCallbacks, scene
      ensures Valid() && State() == Attach(old(State()), hasTopLevel)
      ensures scene.elements == old(scene.elements)
    {
      isAttached := true;
      scene.SetComplexity(complexity, []);
      RequestNextFrame(hasTopLevel);
    }

    method OnDetachedFromVisualTree()
      requires Valid()
      modifies this`isAttached, this`lastFrameTimestamp, this`statsAccumulatorMs, this`statsFrameCount
      ensures Valid() && State() == DetachKeepingRequest(old(State()))
    {
      isAttached := false;
      lastFrameTimestamp := None;
      statsAccumulatorMs := 0.0;
      statsFrameCount := 0;
    }

    method RequestNextFrame(hasTopLevel: bool)
      modifies this`frameRequested, this`pendingCallbacks
      ensures State() == Pacing.RequestNextFrame(old(State()), hasTopLevel)
    {
      if !isAttached || frameRequested {
        return;
      }
      if !hasTopLevel {
        return;
      }
      frameRequested := true;
      pendingCallbacks := pendingCallbacks + 1;
    }

    /** The statistics carry the control's level and the scene's current
        element count. */
    method OnAnimationFrame(timestamp: int, hasTopLevel: bool) returns (stats: Option<FrameStats>)
      requires Valid() && pendingCallbacks > 0
      modifies this`frameRequested, this`pendingCallbacks, this`lastFrameTimestamp,
               this`statsAccumulatorMs, this`statsFrameCount
      ensures Valid()
      ensures FrameResult(State(), stats) ==
        AnimationFrame(old(State()), timestamp, hasTopLevel, complexity, |scene.elements|)
    {
      AnimationFrameKeepsSingleChain(State(), timestamp, hasTopLevel, complexity, |scene.elements|);
      frameRequested := false;
      pendingCallbacks := pendingCallbacks - 1;
      stats := None;
      if !isAttached {
        return;
      }
      if lastFrameTimestamp.Some? {
        var deltaMs := DeltaMs(timestamp, lastFrameTimestamp.value);
        if deltaMs > 0.0 && deltaMs < OutlierLimitMs {
          statsAccumulatorMs := statsAccumulatorMs + deltaMs;
          statsFrameCount := statsFrameCount + 1;
          if statsAccumulatorMs >= StatsWindowMs && statsFrameCount > 0 {
            var averageFrameMs := statsAccumulatorMs / statsFrameCount as real;
            var fps := if averageFrameMs > 0.0 then 1000.0 / averageFrameMs else 0.0;
            stats := Some(FrameStats(complexity, |scene.elements|, averageFrameMs, fps));
            statsAccumulatorMs := 0.0;
            statsFrameCount := 0;
          }
        }
      }
      lastFrameTimestamp := Some(timestamp);
      if !renderFailed {
        RequestNextFrame(hasTopLevel);
      }
    }

    /** One frame: as for the managed control, and a zero canvas handle marks
        the failure too. On a usable handle the scene renders one frame unless
        a canvas call before it throws; the trace is what the scene drew. */
    method RenderFrame(target: DrawTarget, lease: Lease, fault: Option<Failure>,
                       rolls: seq<Roll>, flips: seq<bool>)
      returns (trace: seq<DrawOp>, line: Option<string>)
      requires Valid() && ValidRolls(rolls)
      requires |rolls| >= ComputeElementCount(complexity) - |scene.elements|
      requires |flips| == ComputeElementCount(complexity)
      modifies this`renderFailed, this`lastRenderError, this`errorLog, scene
      ensures Valid()
      ensures (State(), line) == AfterRender(old(State()), NativeOutcome(target, lease, fault))
      ensures errorLog == old(errorLog) + Written(line)
      ensures NativeOutcome(target, lease, fault).Rendered? ==>
        var drawn := Resized(old(scene.elements), ComputeElementCount(complexity), rolls);
        trace == RenderTrace(drawn) && scene.elements == FlipSplits(drawn, flips, |drawn|)
      ensures !NativeOutcome(target, lease, fault).Rendered? ==>
        trace == [] && scene.elements == old(scene.elements)
    {
      trace := [];
      line := None;
      if target.pixelWidth <= 0 || target.pixelHeight <= 0 {
        return;
      }
      if target.destWidth <= 0.0 || target.destHeight <= 0.0 {
        return;
      }
      if lease.NoLeaseFeature? || lease.canvas.None? || lease.canvas.value == 0 {
        renderFailed := true;
        return;
      }
      match fault {
        case Some(e) =>
          line := LogRenderError("rendering frame", e);
          renderFailed := true;
        case None =>
          var completed;
          trace, completed := scene.Render(rolls, flips);
          renderFailed := false;
      }
    }

    method LogRenderError(stage: string, e: Failure) returns (line: Option<string>)
      modifies this`lastRenderError, this`errorLog
      ensures (State(), line) ==
        Pacing.LogRenderError(old(State()), ErrorMessage("MotionMarkNativeSurface", stage, e))
      ensures errorLog == old(errorLog) + Written(line)
    {
      var message := ErrorMessage("MotionMarkNativeSurface", stage, e);
      if lastRenderError == Some(message) {
        return None;
      }
      lastRenderError := Some(message);
      errorLog := errorLog + [message];
      line := Some(message);
    }
  }
}
