/** The frame pacing, statistics and failure state machine the two Avalonia
    surfaces share: one animation-frame request at a time while attached,
    frame deltas filtered to (0, 250) ms and averaged over 500 ms windows,
    and a render-failure flag that stops re-scheduling, with consecutive
    identical error messages written once.

    Besides the surface's own fields the state records how many
    animation-frame callbacks the host's render loop still holds for the
    surface, so that "one request at a time" can be stated. */
module Pacing {
  import opened Wrappers

  /** TimeSpan ticks per millisecond. */
  const TicksPerMillisecond: int := 10_000
  /** Deltas at or above this many milliseconds are outliers. */
  const OutlierLimitMs: real := 250.0
  /** Statistics are emitted once this many milliseconds have accumulated. */
  const StatsWindowMs: real := 500.0

  /** The record a surface emits once per statistics window. */
  datatype FrameStats = FrameStats(
    complexity: int,
    elementCount: int,
    frameTimeMilliseconds: real,
    framesPerSecond: real)

  datatype PacingState = PacingState(
    isAttached: bool,
    frameRequested: bool,
    /** In TimeSpan ticks. */
    lastFrameTimestamp: Option<int>,
    statsAccumulatorMs: real,
    statsFrameCount: int,
    renderFailed: bool,
    lastRenderError: Option<string>,
    /** Callbacks the host holds for the surface and has not delivered. */
    pendingCallbacks: nat)

  /** A new, detached surface. */
  const Initial: PacingState := PacingState(false, false, None, 0.0, 0, false, None, 0)

  // ---------------------------------------------------------------------
  // Events

  /** Registers one animation-frame callback with the top level, unless the
      surface is detached, already waits for one, or has no top level. */
  function RequestNextFrame(s: PacingState, hasTopLevel: bool): (t: PacingState)
    ensures t.frameRequested == (s.frameRequested || (s.isAttached && hasTopLevel))
    ensures t.pendingCallbacks ==
      s.pendingCallbacks + (if s.isAttached && !s.frameRequested && hasTopLevel then 1 else 0)
    ensures t == s.(frameRequested := t.frameRequested, pendingCallbacks := t.pendingCallbacks)
  {
    if !s.isAttached || s.frameRequested then s
    else if !hasTopLevel then s
    else s.(frameRequested := true, pendingCallbacks := s.pendingCallbacks + 1)
  }

  /** Attaching to the visual tree: the surface is attached and asks for a
      frame; nothing else changes. */
  function Attach(s: PacingState, hasTopLevel: bool): (t: PacingState)
    ensures t.isAttached
    ensures t.frameRequested == (s.frameRequested || hasTopLevel)
    ensures t.pendingCallbacks == s.pendingCallbacks + (if !s.frameRequested && hasTopLevel then 1 else 0)
    ensures t == s.(isAttached := true, frameRequested := t.frameRequested, pendingCallbacks := t.pendingCallbacks)
  {
    RequestNextFrame(s.(isAttached := true), hasTopLevel)
  }

  /** Detaching, as written: the pacing state is reset, including the
      request flag, while the host may still hold the callback. */
  function Detach(s: PacingState): (t: PacingState)
    ensures !t.isAttached && !t.frameRequested && t.lastFrameTimestamp == None
    ensures t.statsAccumulatorMs == 0.0 && t.statsFrameCount == 0
    ensures t.pendingCallbacks == s.pendingCallbacks
    ensures t.renderFailed == s.renderFailed && t.lastRenderError == s.lastRenderError
  {
    s.(isAttached := false, frameRequested := false, lastFrameTimestamp := None,
       statsAccumulatorMs := 0.0, statsFrameCount := 0)
  }

  /** Detaching, corrected: the same reset, but the request flag is left to
      the callback the host still holds, which clears it when it arrives. */
  function DetachKeepingRequest(s: PacingState): (t: PacingState)
    ensures !t.isAttached && t.lastFrameTimestamp == None
    ensures t.statsAccumulatorMs == 0.0 && t.statsFrameCount == 0
    ensures t.frameRequested == s.frameRequested && t.pendingCallbacks == s.pendingCallbacks
    ensures t.renderFailed == s.renderFailed && t.lastRenderError == s.lastRenderError
  {
    s.(isAttached := false, lastFrameTimestamp := None, statsAccumulatorMs := 0.0, statsFrameCount := 0)
  }

  /** Changing the multithreading flag forgets an earlier failure and its
      message, then asks for a frame. */
  function ToggleMultithreading(s: PacingState, hasTopLevel: bool): (t: PacingState)
    ensures !t.renderFailed && t.lastRenderError == None
    ensures t.frameRequested == (s.frameRequested || (s.isAttached && hasTopLevel))
    ensures t.isAttached == s.isAttached && t.lastFrameTimestamp == s.lastFrameTimestamp
    ensures t.statsAccumulatorMs == s.statsAccumulatorMs && t.statsFrameCount == s.statsFrameCount
    ensures t.pendingCallbacks ==
      s.pendingCallbacks + (if s.isAttached && !s.frameRequested && hasTopLevel then 1 else 0)
  {
    RequestNextFrame(s.(renderFailed := false, lastRenderError := None), hasTopLevel)
  }

  /** TimeSpan.TotalMilliseconds of a difference of two timestamps. */
  function DeltaMs(timestamp: int, last: int): real {
    (timestamp - last) as real / TicksPerMillisecond as real
  }

  /** A delta that counts towards the statistics. */
  predicate Accepted(deltaMs: real) {
    0.0 < deltaMs < OutlierLimitMs
  }

  datatype FrameResult = FrameResult(state: PacingState, stats: Option<FrameStats>)

  /** The statistics step of a callback on an attached surface. */
  function Sample(s: PacingState, timestamp: int, complexity: int, elementCount: int): (r: FrameResult)
    ensures r.state == s.(statsAccumulatorMs := r.state.statsAccumulatorMs, statsFrameCount := r.state.statsFrameCount)
    ensures s.lastFrameTimestamp == None || !Accepted(DeltaMs(timestamp, s.lastFrameTimestamp.value)) ==>
      r == FrameResult(s, None)
    ensures r.stats.Some? ==>
      && r.stats.value.complexity == complexity && r.stats.value.elementCount == elementCount
      && r.state.statsAccumulatorMs == 0.0 && r.state.statsFrameCount == 0
  {
    match s.lastFrameTimestamp
    case None => FrameResult(s, None)
    case Some(last) =>
      var deltaMs := DeltaMs(timestamp, last);
      if !Accepted(deltaMs) then FrameResult(s, None)
      else
        var accumulated := s.statsAccumulatorMs + deltaMs;
        var frames := s.statsFrameCount + 1;
        if accumulated >= StatsWindowMs && frames > 0 then
          var average := accumulated / frames as real;
          var fps := if average > 0.0 then 1000.0 / average else 0.0;
          FrameResult(s.(statsAccumulatorMs := 0.0, statsFrameCount := 0),
                      Some(FrameStats(complexity, elementCount, average, fps)))
        else
          FrameResult(s.(statsAccumulatorMs := accumulated, statsFrameCount := frames), None)
  }

  /** The host delivers one held callback at `timestamp`. A detached surface
      only clears its flag; an attached one samples the delta, records the
      timestamp and asks for the next frame unless rendering failed. */
  function AnimationFrame(s: PacingState, timestamp: int, hasTopLevel: bool,
                          complexity: int, elementCount: int): (r: FrameResult)
    requires s.pendingCallbacks > 0
    ensures r.state.pendingCallbacks == s.pendingCallbacks - 1 + (if r.state.frameRequested then 1 else 0)
    ensures r.state.isAttached == s.isAttached
    ensures r.state.renderFailed == s.renderFailed && r.state.lastRenderError == s.lastRenderError
    ensures !s.isAttached ==> r.stats == None && !r.state.frameRequested
    ensures s.isAttached ==> r.state.lastFrameTimestamp == Some(timestamp)
  {
    var cleared := s.(frameRequested := false, pendingCallbacks := s.pendingCallbacks - 1);
    if !cleared.isAttached then FrameResult(cleared, None)
    else
      var sampled := Sample(cleared, timestamp, complexity, elementCount);
      var stamped := sampled.state.(lastFrameTimestamp := Some(timestamp));
      FrameResult(if !stamped.renderFailed then RequestNextFrame(stamped, hasTopLevel) else stamped,
                  sampled.stats)
  }

  // ---------------------------------------------------------------------
  // Rendering a frame and logging its failure

  /** An exception: its ToString() text and its inner exception. */
  datatype Failure = Failure(text: string, inner: Option<Failure>)

  /** Exception.GetBaseException for exceptions that link one inner
      exception each: the innermost exception of the chain. The override on
      AggregateException, which stops at an aggregate of several inner
      exceptions, is not modelled. */
  function BaseException(e: Failure): (root: Failure)
    ensures root.inner == None
    ensures e.inner == None ==> root == e
    decreases e
  {
    match e.inner
    case None => e
    case Some(inner) => BaseException(inner)
  }

  /** The innermost exception of a chain is never the outer one. */
  lemma {:induction false} BaseOfWrapped(e: Failure)
    requires e.inner.Some?
    ensures BaseException(e) != e
  {
    BaseSmaller(e.inner.value);
    assert e.inner.value < e;
  }

  lemma {:induction false} BaseSmaller(e: Failure)
    ensures BaseException(e) == e || BaseException(e) < e
    decreases e
  {
    if e.inner.Some? {
      BaseSmaller(e.inner.value);
    }
  }

  const NewLine: string := "\n"

  /** The logged line: the component, the stage, and the root exception
      followed by the full one when they differ. */
  function ErrorMessage(component: string, stage: string, e: Failure): (message: string)
    ensures e.inner == None ==> message == "[" + component + "] Error while " + stage + ": " + e.text
  {
    var root := BaseException(e);
    var detail := if root == e then root.text else root.text + NewLine + e.text;
    "[" + component + "] Error while " + stage + ": " + detail
  }

  /** A wrapped exception reports its root first and then itself. */
  lemma WrappedErrorMessage(component: string, stage: string, e: Failure)
    requires e.inner.Some?
    ensures ErrorMessage(component, stage, e) ==
      "[" + component + "] Error while " + stage + ": " + BaseException(e).text + NewLine + e.text
  {
    BaseOfWrapped(e);
  }

  /** How a frame's rendering went. */
  datatype RenderOutcome =
    | Skipped              // an empty target: nothing happens
    | Unavailable          // no lease feature, no canvas, or a null handle
    | Rendered
    | Threw(message: string)

  /** Writes `message` to the error stream unless it repeats the last one;
      the second component is the line written, if any. */
  function LogRenderError(s: PacingState, message: string): (r: (PacingState, Option<string>))
    ensures r.0.lastRenderError == Some(message)
    ensures r.1 == (if s.lastRenderError == Some(message) then None else Some(message))
    ensures r.0 == s.(lastRenderError := Some(message))
  {
    if s.lastRenderError == Some(message) then (s, None)
    else (s.(lastRenderError := Some(message)), Some(message))
  }

  /** The failure flag after a frame, and the line logged for it. */
  function AfterRender(s: PacingState, outcome: RenderOutcome): (r: (PacingState, Option<string>))
    ensures r.0.renderFailed == (outcome.Unavailable? || outcome.Threw? || (outcome.Skipped? && s.renderFailed))
    ensures r.1.Some? ==> outcome.Threw? && r.1.value == outcome.message
    ensures outcome.Threw? ==> r.0.lastRenderError == Some(outcome.message)
    ensures !outcome.Threw? ==> r.0.lastRenderError == s.lastRenderError
    ensures r.0 == s.(renderFailed := r.0.renderFailed, lastRenderError := r.0.lastRenderError)
  {
    match outcome
    case Skipped => (s, None)
    case Unavailable => (s.(renderFailed := true), None)
    case Rendered => (s.(renderFailed := false), None)
    case Threw(message) =>
      var (logged, line) := LogRenderError(s, message);
      (logged.(renderFailed := true), line)
  }

  /** The same failure twice in a row is written once. */
  lemma RepeatedFailureLoggedOnce(s: PacingState, message: string)
    ensures var (first, line1) := AfterRender(s, Threw(message));
      var (second, line2) := AfterRender(first, Threw(message));
      line2 == None && second == first && (line1 == None <==> s.lastRenderError == Some(message))
  {
  }

  /** The target of a draw operation: the pixel size of the backing store
      and the size of the destination rectangle. */
  datatype DrawTarget = DrawTarget(pixelWidth: int, pixelHeight: int, destWidth: real, destHeight: real)

  predicate NonEmpty(target: DrawTarget) {
    target.pixelWidth > 0 && target.pixelHeight > 0 && target.destWidth > 0.0 && target.destHeight > 0.0
  }

  /** What the renderer obtained from the drawing context: no Skia lease
      feature, or a lease whose canvas may be missing; a present canvas
      carries its native handle (0 for a null handle). */
  datatype Lease = NoLeaseFeature | Leased(canvas: Option<int>)

  /** The managed surface's frame: size checks, lease, canvas, then the
      scene draws or something throws. */
  function ManagedOutcome(target: DrawTarget, lease: Lease, fault: Option<Failure>): (o: RenderOutcome)
    ensures !NonEmpty(target) <==> o.Skipped?
    ensures o.Unavailable? <==> NonEmpty(target) && (lease.NoLeaseFeature? || lease.canvas.None?)
    ensures o.Rendered? <==> NonEmpty(target) && lease.Leased? && lease.canvas.Some? && fault.None?
    ensures o.Threw? ==> o.message == ErrorMessage("MotionMarkSurface", "rendering frame", fault.value)
  {
    if !NonEmpty(target) then Skipped
    else match lease
      case NoLeaseFeature => Unavailable
      case Leased(canvas) =>
        if canvas.None? then Unavailable
        else match fault
          case Some(e) => Threw(ErrorMessage("MotionMarkSurface", "rendering frame", e))
          case None => Rendered
  }

  /** The native surface's frame: the same, and a null canvas handle is
      treated like a missing canvas. */
  function NativeOutcome(target: DrawTarget, lease: Lease, fault: Option<Failure>): (o: RenderOutcome)
    ensures !NonEmpty(target) <==> o.Skipped?
    ensures o.Unavailable? <==>
      NonEmpty(target) && (lease.NoLeaseFeature? || lease.canvas.None? || lease.canvas.value == 0)
    ensures o.Rendered? <==>
      NonEmpty(target) && lease.Leased? && lease.canvas.Some? && lease.canvas.value != 0 && fault.None?
    ensures o.Threw? ==> o.message == ErrorMessage("MotionMarkNativeSurface", "rendering frame", fault.value)
  {
    if !NonEmpty(target) then Skipped
    else match lease
      case NoLeaseFeature => Unavailable
      case Leased(canvas) =>
        if canvas.None? then Unavailable
        else if canvas.value == 0 then Unavailable
        else match fault
          case Some(e) => Threw(ErrorMessage("MotionMarkNativeSurface", "rendering frame", e))
          case None => Rendered
  }

  // ---------------------------------------------------------------------
  // What the state machine keeps

  /** The statistics window between callbacks: below 500 ms, every
      accepted delta positive and below 250 ms, and empty while detached. */
  predicate WindowInvariant(s: PacingState) {
    && 0.0 <= s.statsAccumulatorMs < StatsWindowMs
    && 0 <= s.statsFrameCount
    && (s.statsFrameCount == 0 <==> s.statsAccumulatorMs == 0.0)
    && (s.statsFrameCount > 0 ==> s.statsAccumulatorMs < OutlierLimitMs * s.statsFrameCount as real)
    && (!s.isAttached ==> s.lastFrameTimestamp == None && s.statsFrameCount == 0)
  }

  /** As written: the request flag is set only while attached, and a set
      flag has a callback behind it. */
  predicate Invariant(s: PacingState) {
    && WindowInvariant(s)
    && (!s.isAttached ==> !s.frameRequested)
    && (s.frameRequested ==> s.pendingCallbacks >= 1)
  }

  /** Corrected: the host holds exactly one callback when the flag is set
      and none otherwise. */
  predicate SingleChain(s: PacingState) {
    && WindowInvariant(s)
    && s.pendingCallbacks == (if s.frameRequested then 1 else 0)
  }

  /** An event the surface reacts to. Frames carry the host's timestamp;
      the level and element count only label the emitted statistics. */
  datatype Event =
    | Attached(hasTopLevel: bool)
    | Detached
    | MultithreadingToggled(hasTopLevel: bool)
    | Frame(timestamp: int, hasTopLevel: bool)
    | RenderedFrame(outcome: RenderOutcome)

  /** One event on the code as written. A frame arrives only for a callback
      the host holds; without one the event is not delivered. */
  function Step(s: PacingState, e: Event): PacingState {
    match e
    case Attached(hasTopLevel) => Attach(s, hasTopLevel)
    case Detached => Detach(s)
    case MultithreadingToggled(hasTopLevel) => ToggleMultithreading(s, hasTopLevel)
    case Frame(timestamp, hasTopLevel) =>
      if s.pendingCallbacks == 0 then s else AnimationFrame(s, timestamp, hasTopLevel, 0, 0).state
    case RenderedFrame(outcome) => AfterRender(s, outcome).0
  }

  /** The same with the corrected detach. */
  function StepCorrected(s: PacingState, e: Event): PacingState {
    match e
    case Detached => DetachKeepingRequest(s)
    case _ => Step(s, e)
  }

  function Run(s: PacingState, events: seq<Event>): PacingState
    decreases |events|
  {
    if events == [] then s else Run(Step(s, events[0]), events[1..])
  }

  function RunCorrected(s: PacingState, events: seq<Event>): PacingState
    decreases |events|
  {
    if events == [] then s else RunCorrected(StepCorrected(s, events[0]), events[1..])
  }

  // ---------------------------------------------------------------------
  // Properties of a callback

  /** The statistics step keeps the window invariant, and emits exactly
      when an accepted delta completes 500 ms: the average is the window's
      mean delta, below 250 ms, and the rate is its reciprocal per second,
      above 4 frames per second. */
  lemma {:induction false} SampleKeepsWindow(s: PacingState, timestamp: int, complexity: int, elementCount: int)
    requires WindowInvariant(s) && s.isAttached
    ensures var r := Sample(s, timestamp, complexity, elementCount);
      && WindowInvariant(r.state)
      && r.state == s.(statsAccumulatorMs := r.state.statsAccumulatorMs, statsFrameCount := r.state.statsFrameCount)
      && (s.lastFrameTimestamp == None || !Accepted(DeltaMs(timestamp, s.lastFrameTimestamp.value)) ==> r == FrameResult(s, None))
      && (s.lastFrameTimestamp.Some? && Accepted(DeltaMs(timestamp, s.lastFrameTimestamp.value)) ==>
          var accumulated := s.statsAccumulatorMs + DeltaMs(timestamp, s.lastFrameTimestamp.value);
          var frames := s.statsFrameCount + 1;
          && (r.stats.Some? <==> accumulated >= StatsWindowMs)
          && (r.stats.Some? ==>
                && r.stats.value == FrameStats(complexity, elementCount, accumulated / frames as real, r.stats.value.framesPerSecond)
                && 0.0 < r.stats.value.frameTimeMilliseconds < OutlierLimitMs
                && r.stats.value.framesPerSecond * r.stats.value.frameTimeMilliseconds == 1000.0
                && r.stats.value.framesPerSecond > 4.0
                && r.state.statsAccumulatorMs == 0.0 && r.state.statsFrameCount == 0)
          && (r.stats.None? ==>
                r.state.statsAccumulatorMs == accumulated && r.state.statsFrameCount == frames))
  {
    var r := Sample(s, timestamp, complexity, elementCount);
    if s.lastFrameTimestamp.Some? {
      var deltaMs := DeltaMs(timestamp, s.lastFrameTimestamp.value);
      if Accepted(deltaMs) {
        var accumulated := s.statsAccumulatorMs + deltaMs;
        var frames := s.statsFrameCount + 1;
        assert accumulated < OutlierLimitMs * frames as real;
        if accumulated >= StatsWindowMs {
          var average := accumulated / frames as real;
          AverageBelowLimit(accumulated, frames as real);
          assert r.stats.value.framesPerSecond == 1000.0 / average;
          RateAboveFour(average);
        }
      }
    }
  }

  /** A mean of deltas below 250 ms is below 250 ms and positive. */
  lemma AverageBelowLimit(total: real, n: real)
    requires 0.0 < total < OutlierLimitMs * n
    ensures 0.0 < total / n < OutlierLimitMs
  {
    assert total / n * n == total;
    assert (OutlierLimitMs - total / n) * n == OutlierLimitMs * n - total;
  }

  lemma RateAboveFour(average: real)
    requires 0.0 < average < OutlierLimitMs
    ensures 1000.0 / average * average == 1000.0 && 1000.0 / average > 4.0
  {
    var rate := 1000.0 / average;
    assert rate * average == 1000.0;
    assert (rate - 4.0) * average == 1000.0 - 4.0 * average;
  }

  /** What an animation-frame callback does to the pacing state. */
  lemma {:induction false} AnimationFrameEffects(s: PacingState, timestamp: int, hasTopLevel: bool,
                                                 complexity: int, elementCount: int)
    requires s.pendingCallbacks > 0
    ensures var r := AnimationFrame(s, timestamp, hasTopLevel, complexity, elementCount);
      && (!s.isAttached ==>
            r == FrameResult(s.(frameRequested := false, pendingCallbacks := s.pendingCallbacks - 1), None))
      && (s.isAttached ==>
            && r.state.lastFrameTimestamp == Some(timestamp)
            && r.state.frameRequested == (!s.renderFailed && hasTopLevel)
            && r.state.pendingCallbacks == s.pendingCallbacks - 1 + (if r.state.frameRequested then 1 else 0)
            && r.state.isAttached && r.state.renderFailed == s.renderFailed
            && r.state.lastRenderError == s.lastRenderError)
  {
  }

  /** Five 100 ms frames after a first one: the fifth completes the window
      with a 100 ms average, i.e. 10 frames per second. */
  lemma FiveFramesOfHundredMs(s: PacingState)
    requires s.isAttached && s.lastFrameTimestamp == Some(0)
    requires s.statsAccumulatorMs == 0.0 && s.statsFrameCount == 0
    ensures var r1 := Sample(s, 1_000_000, 8, 9000);
      var r2 := Sample(r1.state.(lastFrameTimestamp := Some(1_000_000)), 2_000_000, 8, 9000);
      var r3 := Sample(r2.state.(lastFrameTimestamp := Some(2_000_000)), 3_000_000, 8, 9000);
      var r4 := Sample(r3.state.(lastFrameTimestamp := Some(3_000_000)), 4_000_000, 8, 9000);
      var r5 := Sample(r4.state.(lastFrameTimestamp := Some(4_000_000)), 5_000_000, 8, 9000);
      && r1.stats == None && r2.stats == None && r3.stats == None && r4.stats == None
      && r4.state.statsAccumulatorMs == 400.0 && r4.state.statsFrameCount == 4
      && r5.stats == Some(FrameStats(8, 9000, 100.0, 10.0))
      && r5.state.statsAccumulatorMs == 0.0 && r5.state.statsFrameCount == 0
  {
    assert DeltaMs(1_000_000, 0) == 100.0;
  }

  // ---------------------------------------------------------------------
  // Invariants over event sequences, and the detach finding

  /** A callback keeps the invariant as written. */
  lemma {:induction false} AnimationFrameKeepsInvariant(s: PacingState, timestamp: int, hasTopLevel: bool,
                                                        complexity: int, elementCount: int)
    requires Invariant(s) && s.pendingCallbacks > 0
    ensures Invariant(AnimationFrame(s, timestamp, hasTopLevel, complexity, elementCount).state)
  {
    if s.isAttached {
      var cleared := s.(frameRequested := false, pendingCallbacks := s.pendingCallbacks - 1);
      SampleKeepsWindow(cleared, timestamp, complexity, elementCount);
    }
  }

  /** A callback keeps the corrected invariant: the callback it consumes is
      the one behind the flag, and it registers at most one successor. */
  lemma {:induction false} AnimationFrameKeepsSingleChain(s: PacingState, timestamp: int, hasTopLevel: bool,
                                                          complexity: int, elementCount: int)
    requires SingleChain(s) && s.pendingCallbacks > 0
    ensures SingleChain(AnimationFrame(s, timestamp, hasTopLevel, complexity, elementCount).state)
  {
    if s.isAttached {
      var cleared := s.(frameRequested := false, pendingCallbacks := s.pendingCallbacks - 1);
      SampleKeepsWindow(cleared, timestamp, complexity, elementCount);
    }
  }

  lemma {:induction false} StepKeepsInvariant(s: PacingState, e: Event)
    requires Invariant(s)
    ensures Invariant(Step(s, e))
  {
    match e
    case Frame(timestamp, hasTopLevel) =>
      if s.pendingCallbacks > 0 {
        AnimationFrameKeepsInvariant(s, timestamp, hasTopLevel, 0, 0);
      }
    case _ =>
  }

  lemma {:induction false} StepCorrectedKeepsSingleChain(s: PacingState, e: Event)
    requires SingleChain(s)
    ensures SingleChain(StepCorrected(s, e))
  {
    match e
    case Frame(timestamp, hasTopLevel) =>
      if s.pendingCallbacks > 0 {
        AnimationFrameKeepsSingleChain(s, timestamp, hasTopLevel, 0, 0);
      }
    case _ =>
  }

  /** Every state reached on the code as written keeps the invariant. */
  lemma {:induction false} RunKeepsInvariant(s: PacingState, events: seq<Event>)
    requires Invariant(s)
    ensures Invariant(Run(s, events))
    decreases |events|
  {
    if events != [] {
      StepKeepsInvariant(s, events[0]);
      RunKeepsInvariant(Step(s, events[0]), events[1..]);
    }
  }

  /** With the corrected detach, the host never holds more than one
      callback for the surface. */
  lemma {:induction false} RunCorrectedKeepsSingleChain(s: PacingState, events: seq<Event>)
    requires SingleChain(s)
    ensures SingleChain(RunCorrected(s, events))
    ensures RunCorrected(s, events).pendingCallbacks <= 1
    decreases |events|
  {
    if events != [] {
      StepCorrectedKeepsSingleChain(s, events[0]);
      RunCorrectedKeepsSingleChain(StepCorrected(s, events[0]), events[1..]);
    }
  }

  lemma InitialKeepsBoth()
    ensures Invariant(Initial) && SingleChain(Initial)
  {
  }

  /** As written: attaching, detaching and attaching again before the next
      frame leaves two callbacks with the host, and each of them goes on to
      request its own successor. */
  lemma DetachReattachDoublesCallbacks()
    ensures Run(Initial, [Attached(true), Detached, Attached(true)]).pendingCallbacks == 2
    ensures RunCorrected(Initial, [Attached(true), Detached, Attached(true)]).pendingCallbacks == 1
    ensures var s := Run(Initial, [Attached(true), Detached, Attached(true), Frame(1, true)]);
      s.pendingCallbacks == 2 && s.frameRequested
  {
    var events := [Attached(true), Detached, Attached(true)];
    assert events[1..] == [Detached, Attached(true)];
    assert events[1..][1..] == [Attached(true)];
    var events4 := events + [Frame(1, true)];
    assert events4[1..] == [Detached, Attached(true), Frame(1, true)];
    assert events4[1..][1..] == [Attached(true), Frame(1, true)];
    assert events4[1..][1..][1..] == [Frame(1, true)];
  }
}
