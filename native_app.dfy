/** The standalone native renderer: the window layer that owns the scene
    (fields updated in place by resize, paint and complexity changes) and
    the application object that paces idle ticks and reports a frame rate
    in the window title. */
module NativeApp {
  import opened Wrappers
  import opened Scene

  const InitialWidth: int := 1280
  const InitialHeight: int := 720

  /** std::max(1, v): a window dimension is never stored below one pixel. */
  function AtLeastOne(v: int): (r: int)
    ensures 1 <= r && v <= r
    ensures r == v || r == 1
  {
    if v < 1 then 1 else v
  }

  class MotionMarkLayer {
    var elements: seq<Element>
    var lastGridPoint: GridPoint
    var complexity: int
    var width: int
    var height: int

    /** The chain invariant, which also holds half-way through a complexity
        change. */
    ghost predicate Chain()
      reads this
    {
      && WellFormed(elements)
      && lastGridPoint == Cursor(elements)
      && MinComplexity <= complexity <= MaxComplexity
    }

    /** Between calls the element count always matches the level. */
    ghost predicate Valid()
      reads this
    {
      && Chain()
      && |elements| == ComputeElementCount(complexity)
      && 1 <= width && 1 <= height
    }

    /** A new layer holds the default level's 9000 elements, generated from
        the grid centre, on a 1280 x 720 surface. */
    constructor (rolls: seq<Roll>)
      requires ValidRolls(rolls) && |rolls| >= ComputeElementCount(DefaultComplexity)
      ensures Valid()
      ensures complexity == DefaultComplexity && |elements| == 9000
      ensures elements == Resized([], ComputeElementCount(DefaultComplexity), rolls)
      ensures elements[0].start == GridCenter
      ensures width == InitialWidth && height == InitialHeight
    {
      elements := [];
      lastGridPoint := GridCenter;
      complexity := DefaultComplexity;
      width := InitialWidth;
      height := InitialHeight;
      new;
      ElementCountTable();
      ResizeElements(ComputeElementCount(complexity), rolls);
      GrowthContinuesChain([], ComputeElementCount(DefaultComplexity), rolls);
    }

    method OnResize(w: int, h: int)
      requires Valid()
      modifies this`width, this`height
      ensures Valid()
      ensures width == AtLeastOne(w) && height == AtLeastOne(h)
    {
      width := AtLeastOne(w);
      height := AtLeastOne(h);
    }

    /** One frame, as MotionMarkNativeScene.Render draws it, except that a
        path is stroked only when the builder holds something; it always
        does at that point, so the trace is the scene's frame trace. */
    method OnPaint(flips: seq<bool>) returns (trace: seq<DrawOp>)
      requires Valid() && |flips| == |elements|
      modifies this`elements
      ensures Valid()
      ensures trace == RenderTrace(old(elements))
      ensures elements == FlipSplits(old(elements), flips, |elements|)
    {
      trace := [Clear(BackgroundColor)];
      if |elements| == 0 {
        return;
      }
      var viewport := FitGrid(width as real, height as real);
      var uniformScale := if viewport.scale < 0.0 then 0.0 else viewport.scale;
      if uniformScale <= 0.0 {
        return;
      }
      var flipped;
      trace, flipped := PaintChain(elements, flips, trace);
      FlipSplitsKeepsWellFormed(elements, flips, |elements|);
      elements := flipped;
    }

    /** Clamps the level to [0, 24]; an unchanged level leaves the layer as
        it is, a new one resizes the chain to its count. */
    method SetComplexity(value: int, rolls: seq<Roll>)
      requires Valid() && ValidRolls(rolls)
      requires Clamp(value, MinComplexity, MaxComplexity) != complexity ==>
        |rolls| >= ComputeElementCount(Clamp(value, MinComplexity, MaxComplexity))
      modifies this`complexity, this`elements, this`lastGridPoint
      ensures Valid()
      ensures complexity == Clamp(value, MinComplexity, MaxComplexity)
      ensures complexity == old(complexity) ==> elements == old(elements)
      ensures complexity != old(complexity) ==>
        elements == Resized(old(elements), ComputeElementCount(complexity), rolls)
    {
      var clamped := Clamp(value, MinComplexity, MaxComplexity);
      if clamped == complexity {
        return;
      }
      complexity := clamped;
      ResizeElements(ComputeElementCount(complexity), rolls);
    }

    /** Truncates or extends the chain to `targetCount` elements, moving the
        cursor to the new last end (the grid centre when empty). */
    method ResizeElements(targetCount: int, rolls: seq<Roll>)
      requires Chain() && 0 <= targetCount && ValidRolls(rolls)
      requires targetCount > |elements| ==> |rolls| >= targetCount - |elements|
      modifies this`elements, this`lastGridPoint
      ensures Chain()
      ensures elements == Resized(old(elements), targetCount, rolls)
    {
      var current := |elements|;
      if targetCount == current {
        return;
      }
      if targetCount < current {
        elements := elements[..targetCount];
        lastGridPoint := if targetCount > 0 then elements[|elements| - 1].end else GridCenter;
        return;
      }
      var added := rolls[..targetCount - current];
      var chain, cursor := AppendElements(elements, added);
      ExtendWellFormed(old(elements), added);
      elements := chain;
      lastGridPoint := cursor;
    }
  }

  /** The loop of onPaint after the clear. `verbs` counts what the path
      builder holds; a finalising element strokes and detaches the path
      only when that count is positive, which it always is there. */
  method PaintChain(chain: seq<Element>, flips: seq<bool>, cleared: seq<DrawOp>)
    returns (trace: seq<DrawOp>, flipped: seq<Element>)
    requires |flips| == |chain| && cleared == FrameTrace(chain, 0)
    ensures trace == RenderTrace(chain)
    ensures flipped == FlipSplits(chain, flips, |chain|)
  {
    trace := cleared;
    flipped := chain;
    var verbs := 0;
    var pathStarted := false;
    var i := 0;
    while i < |flipped|
      invariant 0 <= i <= |chain| == |flipped|
      invariant flipped == FlipSplits(chain, flips, i)
      invariant trace == FrameTrace(chain, i)
      invariant pathStarted == (i > 0 && !Finalizes(chain, i - 1))
      invariant pathStarted == (verbs > 0)
    {
      FlipSplitsStep(chain, flips, i);
      ghost var before := trace;
      var element := flipped[i];
      if !pathStarted {
        trace := trace + [MoveTo(element.start)];
        verbs := verbs + 1;
        pathStarted := true;
      }
      var segment;
      match element.kind {
        case Line => segment := LineTo(element.end);
        case Quad => segment := QuadTo(element.control1, element.end);
        case Cubic => segment := CubicTo(element.control1, element.control2, element.end);
      }
      assert segment == SegmentOp(chain[i]);
      trace := trace + [segment];
      verbs := verbs + 1;
      var finalize := element.split || i + 1 == |flipped|;
      if finalize && verbs != 0 {
        trace := trace + [DrawPath(element.color, element.width)];
        verbs := 0;
        pathStarted := false;
      }
      assert trace == Emit(before, chain, i);
      if flips[i] {
        flipped := flipped[i := element.(split := !element.split)];
      }
      i := i + 1;
    }
  }

  // ---------------------------------------------------------------------
  // The application: idle pacing and the frame rate in the title

  /** The per-tick delta is clamped to [1/240 s, 0.25 s]. */
  const MinTick: real := 1.0 / 240.0
  const MaxTick: real := 0.25
  /** The title is refreshed once half a second of ticks has accumulated. */
  const TitleWindow: real := 0.5

  /** What one title refresh shows. */
  datatype TitleStats = TitleStats(framesPerSecond: real, complexity: int, elementCount: int)

  /** The clamped duration of one idle tick, in seconds. */
  function TickDelta(lastTick: real, now: real): (dt: real)
    ensures MinTick <= dt <= MaxTick
    ensures MinTick <= now - lastTick <= MaxTick ==> dt == now - lastTick
    ensures now - lastTick < MinTick ==> dt == MinTick
    ensures now - lastTick > MaxTick ==> dt == MaxTick
  {
    var elapsed := now - lastTick;
    if elapsed < MinTick then MinTick else if elapsed > MaxTick then MaxTick else elapsed
  }

  /** What the clamp implies for `frames` ticks adding up to `accumulated`
      seconds. */
  predicate TickBounds(accumulated: real, frames: int) {
    0 <= frames && MinTick * frames as real <= accumulated <= MaxTick * frames as real
  }

  /** The rate shown in the title lies between 4 and 240 frames per second,
      whatever the clock does: a full window holds at least two ticks, and
      clamped ticks average between 1/240 s and 1/4 s. */
  lemma ReportedRateBounds(accumulated: real, frames: int)
    requires TickBounds(accumulated, frames) && accumulated >= TitleWindow
    ensures frames >= 2
    ensures 4.0 <= frames as real / accumulated <= 240.0
  {
    var n := frames as real;
    assert accumulated <= 0.25 * n && n / 240.0 <= accumulated;
    RateBetween(accumulated, n, n / accumulated);
  }

  /** Division by a positive total on reals: n / t lies in [1/hi, 1/lo]
      when t lies in [lo * n, hi * n], here with lo = 1/240 and hi = 1/4. */
  lemma RateBetween(total: real, n: real, rate: real)
    requires 0.0 < total && total <= 0.25 * n && n / 240.0 <= total && rate * total == n
    ensures 4.0 <= rate <= 240.0
  {
    assert (rate - 4.0) * total == n - 4.0 * total >= 0.0;
    assert (240.0 - rate) * total == 240.0 * total - n >= 0.0;
  }

  class MotionMarkApplication {
    var layer: MotionMarkLayer?
    /** The steady clock's reading at the previous tick, in seconds. */
    var lastTick: real
    var accumulatedTime: real
    var frameCounter: int
    const requestedComplexity: int

    ghost predicate Valid()
      reads this, layer
    {
      && (layer != null ==> layer.Valid())
      && TickBounds(accumulatedTime, frameCounter)
    }

    /** `complexityArg` is what the command line asked for (-1 for
        nothing); `now` is the clock at construction. */
    constructor (complexityArg: int, now: real)
      ensures Valid() && layer == null
      ensures requestedComplexity == complexityArg && lastTick == now
      ensures accumulatedTime == 0.0 && frameCounter == 0
    {
      layer := null;
      lastTick := now;
      accumulatedTime := 0.0;
      frameCounter := 0;
      requestedComplexity := complexityArg;
    }

    /** Attaches the layer once some graphics backend attached: a fresh
        layer at the default level, then the requested level when one was
        given (a non-negative argument), sized to the window. */
    method Init(backendAttached: bool, windowWidth: int, windowHeight: int, now: real,
                rolls: seq<Roll>, moreRolls: seq<Roll>) returns (ok: bool)
      requires Valid() && layer == null
      requires backendAttached ==> ValidRolls(rolls) && |rolls| >= ComputeElementCount(DefaultComplexity)
      requires backendAttached ==> ValidRolls(moreRolls)
      requires backendAttached ==> |moreRolls| >= ComputeElementCount(InitialComplexity(requestedComplexity))
      modifies this
      ensures Valid()
      ensures ok == backendAttached
      ensures !ok ==> layer == null && lastTick == old(lastTick)
      ensures ok ==> layer != null && fresh(layer) && lastTick == now
      ensures ok ==> layer.complexity == InitialComplexity(requestedComplexity)
      ensures ok ==> layer.width == AtLeastOne(windowWidth) && layer.height == AtLeastOne(windowHeight)
      ensures accumulatedTime == old(accumulatedTime) && frameCounter == old(frameCounter)
    {
      if !backendAttached {
        return false;
      }
      var created := new MotionMarkLayer(rolls);
      if requestedComplexity >= 0 {
        created.SetComplexity(requestedComplexity, moreRolls);
      }
      created.OnResize(windowWidth, windowHeight);
      layer := created;
      lastTick := now;
      return true;
    }

    /** One idle tick at clock reading `now`: the clamped delta is added,
        the tick counted, and once half a second has accumulated (and the
        layer exists) the title shows frames / seconds and both restart. */
    method OnIdle(now: real) returns (title: Option<TitleStats>)
      requires Valid()
      modifies this`lastTick, this`accumulatedTime, this`frameCounter
      ensures Valid() && lastTick == now
      ensures var dt := TickDelta(old(lastTick), now);
        var accumulated := old(accumulatedTime) + dt;
        var frames := old(frameCounter) + 1;
        if accumulated >= TitleWindow && layer != null then
          && title == Some(TitleStats(frames as real / accumulated, layer.complexity, |layer.elements|))
          && accumulatedTime == 0.0 && frameCounter == 0
        else
          title == None && accumulatedTime == accumulated && frameCounter == frames
      ensures layer != null ==> accumulatedTime < TitleWindow
      ensures title.Some? ==> 4.0 <= title.value.framesPerSecond <= 240.0
    {
      var dt := TickDelta(lastTick, now);
      lastTick := now;
      accumulatedTime := accumulatedTime + dt;
      frameCounter := frameCounter + 1;
      title := None;
      if accumulatedTime >= TitleWindow && layer != null {
        ReportedRateBounds(accumulatedTime, frameCounter);
        var fps := frameCounter as real / accumulatedTime;
        title := Some(TitleStats(fps, layer.complexity, |layer.elements|));
        accumulatedTime := 0.0;
        frameCounter := 0;
      }
    }
  }

  /** The level the layer runs at after initialisation: the requested one,
      clamped, when the argument is non-negative, and the default otherwise. */
  function InitialComplexity(requested: int): (c: int)
    ensures MinComplexity <= c <= MaxComplexity
    ensures requested < 0 ==> c == DefaultComplexity
    ensures 0 <= requested <= MaxComplexity ==> c == requested
    ensures requested > MaxComplexity ==> c == MaxComplexity
  {
    if requested >= 0 then Clamp(requested, MinComplexity, MaxComplexity) else DefaultComplexity
  }
}
