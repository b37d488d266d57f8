/** The managed renderer's scene object: the element list, the chain cursor
    and the complexity level it updates in place, the per-frame batching loop
    and the one-shot release of its native path and paint. */
module NativeScene {
  import opened Scene

  class MotionMarkNativeScene {
    var elements: seq<Element>
    var lastGridPoint: GridPoint
    var complexity: int
    var disposed: bool
    /** How many times the native path and paint have been released. */
    var releases: nat

    ghost predicate Valid()
      reads this
    {
      && WellFormed(elements)
      && lastGridPoint == Cursor(elements)
      && MinComplexity <= complexity <= MaxComplexity
      && releases == (if disposed then 1 else 0)
    }

    /** A new scene is empty; its first frame grows it to the default level's
        count. */
    constructor ()
      ensures Valid()
      ensures elements == [] && lastGridPoint == GridCenter
      ensures complexity == DefaultComplexity && !disposed
    {
      elements := [];
      lastGridPoint := GridCenter;
      complexity := DefaultComplexity;
      disposed := false;
      releases := 0;
    }

    /** Clamps the level to [0, 24]; a new level resizes the chain to its
        count, the current level leaves everything as it is. */
    method SetComplexity(value: int, rolls: seq<Roll>)
      requires Valid() && ValidRolls(rolls)
      requires Clamp(value, MinComplexity, MaxComplexity) != complexity ==>
        |rolls| >= ComputeElementCount(Clamp(value, MinComplexity, MaxComplexity))
      modifies this
      ensures Valid()
      ensures complexity == Clamp(value, MinComplexity, MaxComplexity)
      ensures complexity == old(complexity) ==> elements == old(elements)
      ensures complexity != old(complexity) ==>
        elements == Resized(old(elements), ComputeElementCount(complexity), rolls)
      ensures disposed == old(disposed) && releases == old(releases)
    {
      var clamped := Clamp(value, MinComplexity, MaxComplexity);
      if complexity == clamped {
        return;
      }
      complexity := clamped;
      Resize(ComputeElementCount(complexity), rolls);
    }

    /** Truncates or extends the chain to `count` elements. A shrink keeps the
        first `count` elements and moves the cursor to the new last end (the
        grid centre when empty); a growth appends one generated element per
        roll, each from the cursor the previous one left. */
    method Resize(count: int, rolls: seq<Roll>)
      requires Valid() && 0 <= count && ValidRolls(rolls)
      requires count > |elements| ==> |rolls| >= count - |elements|
      modifies this`elements, this`lastGridPoint
      ensures Valid()
      ensures elements == Resized(old(elements), count, rolls)
    {
      var current := |elements|;
      if count == current {
        return;
      }
      if count < current {
        elements := elements[..count];
        lastGridPoint := if count > 0 then elements[|elements| - 1].end else GridCenter;
        return;
      }
      var added := rolls[..count - current];
      var chain, cursor := AppendElements(elements, added);
      ExtendWellFormed(old(elements), added);
      elements := chain;
      lastGridPoint := cursor;
    }

    /** One frame: re-establishes the level's element count, clears, then
        strokes the chain in batches; after each element's finalise decision
        its split flag toggles when its flip is drawn. Once disposed, a
        non-empty frame stops after the clear, when the released path is
        first touched. */
    method Render(rolls: seq<Roll>, flips: seq<bool>) returns (trace: seq<DrawOp>, completed: bool)
      requires Valid() && ValidRolls(rolls)
      requires |rolls| >= ComputeElementCount(complexity) - |elements|
      requires |flips| == ComputeElementCount(complexity)
      modifies this`elements, this`lastGridPoint
      ensures Valid()
      ensures |elements| == ComputeElementCount(complexity)
      ensures completed == !disposed
      ensures !completed ==>
        trace == [Clear(BackgroundColor)] && elements == Resized(old(elements), ComputeElementCount(complexity), rolls)
      ensures completed ==>
        var drawn := Resized(old(elements), ComputeElementCount(complexity), rolls);
        trace == RenderTrace(drawn) && elements == FlipSplits(drawn, flips, |drawn|)
    {
      Resize(ComputeElementCount(complexity), rolls);
      ghost var drawn := elements;
      assert drawn == Resized(old(elements), ComputeElementCount(complexity), rolls);
      assert |drawn| >= 1000;
      trace := [Clear(BackgroundColor)];
      completed := !disposed;
      if |elements| == 0 {
        return;
      }
      if disposed {
        return;
      }
      var flipped;
      trace, flipped := StrokeChain(elements, flips, trace);
      FlipSplitsKeepsWellFormed(drawn, flips, |drawn|);
      elements := flipped;
    }

    /** Releases the native path and paint the first time; later calls do
        nothing. */
    method Dispose()
      requires Valid()
      modifies this`disposed, this`releases
      ensures Valid() && disposed && releases == 1
      ensures old(disposed) ==> unchanged(this)
    {
      if disposed {
        return;
      }
      releases := releases + 1;
      disposed := true;
    }
  }

  /** The batching loop of a frame, after the clear: walks the chain once,
      opening a path where the previous element finalised, appending each
      element's segment, stroking the path at a split or the last element,
      and toggling the split flag of each element whose flip is drawn. */
  method StrokeChain(chain: seq<Element>, flips: seq<bool>, cleared: seq<DrawOp>)
    returns (trace: seq<DrawOp>, flipped: seq<Element>)
    requires |flips| == |chain| && cleared == FrameTrace(chain, 0)
    ensures trace == RenderTrace(chain)
    ensures flipped == FlipSplits(chain, flips, |chain|)
  {
    trace := cleared;
    flipped := chain;
    var pathStarted := false;
    var i := 0;
    while i < |flipped|
      invariant 0 <= i <= |chain| == |flipped|
      invariant flipped == FlipSplits(chain, flips, i)
      invariant trace == FrameTrace(chain, i)
      invariant pathStarted == (i > 0 && !Finalizes(chain, i - 1))
    {
      FlipSplitsStep(chain, flips, i);
      ghost var before := trace;
      var element := flipped[i];
      if !pathStarted {
        trace := trace + [MoveTo(element.start)];
        pathStarted := true;
      }
      var segment;
      match element.kind {
        case Line => segment := LineTo(element.end);
        case Quad => segment := QuadTo(element.control1, element.end);
        case Cubic => segment := CubicTo(element.control1, element.control2, element.end);
      }
      assert segment == SegmentOp(chain[i]);
      trace := trace + [segment];
      var finalize := element.split || i == |flipped| - 1;
      if finalize {
        trace := trace + [DrawPath(element.color, element.width)];
        pathStarted := false;
      }
      assert trace == Emit(before, chain, i);
      if flips[i] {
        flipped := flipped[i := element.(split := !element.split)];
      }
      i := i + 1;
    }
  }
}
