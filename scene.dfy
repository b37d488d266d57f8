/** The benchmark scene shared by the managed and the native renderer: an
    ordered chain of path segments on an 80 x 40 integer grid, grown and
    shrunk to a target count derived from a complexity level, and the
    sequence of drawing operations one frame issues for it.

    Randomness is an input: every generated element is driven by one `Roll`
    (the draws the generator makes for it, in order), and every rendered
    frame by one `bool` per element (whether its split flag toggles). */
module Scene {
  import opened Interop

  const GridWidth: int := 80
  const GridHeight: int := 40
  const MinComplexity: int := 0
  const MaxComplexity: int := 24
  const DefaultComplexity: int := 8
  const MaxElementCount: int := 120_000

  /** A point of the logical grid. */
  datatype GridPoint = GridPoint(x: int, y: int)

  /** Where the chain starts: the centre of the grid. */
  const GridCenter: GridPoint := GridPoint(GridWidth / 2, GridHeight / 2)

  /** The value of a point the generator leaves unset. */
  const Origin: GridPoint := GridPoint(0, 0)

  predicate InGrid(p: GridPoint) {
    0 <= p.x <= GridWidth && 0 <= p.y <= GridHeight
  }

  /** The four step vectors of the random walk. */
  const Offsets: seq<(int, int)> := [(-4, 0), (2, 0), (1, -2), (1, 2)]

  /** The seven stroke colours; a colour is drawn uniformly by index. */
  const Palette: seq<bv32> := [
    PackColor(0xFF, 0x10, 0x10, 0x10),
    PackColor(0xFF, 0x80, 0x80, 0x80),
    PackColor(0xFF, 0xC0, 0xC0, 0xC0),
    PackColor(0xFF, 0x10, 0x10, 0x10),
    PackColor(0xFF, 0x80, 0x80, 0x80),
    PackColor(0xFF, 0xC0, 0xC0, 0xC0),
    PackColor(0xFF, 0xE0, 0x10, 0x40)
  ]

  /** The colour every frame is cleared to. */
  const BackgroundColor: bv32 := PackColor(0xFF, 12, 16, 24)

  datatype SegmentKind = Line | Quad | Cubic

  /** One path segment. `control1` is meaningful for Quad and Cubic,
      `control2` for Cubic only; `split` ends a stroked sub-path. */
  datatype Element = Element(
    kind: SegmentKind,
    start: GridPoint,
    control1: GridPoint,
    control2: GridPoint,
    end: GridPoint,
    color: bv32,
    width: real,
    split: bool)

  /** Math.Clamp / std::clamp on integers. */
  function Clamp(value: int, lo: int, hi: int): (r: int)
    requires lo <= hi
    ensures lo <= r <= hi
    ensures lo <= value <= hi ==> r == value
    ensures value < lo ==> r == lo
    ensures value > hi ==> r == hi
  {
    if value < lo then lo else if value > hi then hi else value
  }

  // ---------------------------------------------------------------------
  // Target element count

  /** The number of elements the scene holds at a complexity level: a
      thousand per level below 10, then ten thousand per level above 8,
      capped at 120000. */
  function ComputeElementCount(complexity: int): (count: int)
    ensures MinComplexity <= complexity <= MaxComplexity ==> 1000 <= count <= MaxElementCount
  {
    if complexity < 10 then (complexity + 1) * 1000
    else
      var extended := (complexity - 8) * 10_000;
      if extended < MaxElementCount then extended else MaxElementCount
  }

  /** A higher complexity level never asks for fewer elements. */
  lemma ElementCountMonotone(c1: int, c2: int)
    requires MinComplexity <= c1 <= c2 <= MaxComplexity
    ensures ComputeElementCount(c1) <= ComputeElementCount(c2)
  {
  }

  /** The two pieces of the curve, the jump at level 10 and the cap from
      level 20 on. */
  lemma ElementCountTable()
    ensures ComputeElementCount(0) == 1000
    ensures ComputeElementCount(DefaultComplexity) == 9000
    ensures ComputeElementCount(9) == 10_000
    ensures ComputeElementCount(10) == 20_000
    ensures ComputeElementCount(19) == 110_000
    ensures forall c :: 20 <= c <= MaxComplexity ==> ComputeElementCount(c) == MaxElementCount
  {
  }

  // ---------------------------------------------------------------------
  // The random walk

  /** The moves the walk can make: an offset vector with either coordinate
      possibly mirrored. */
  predicate IsStep(a: GridPoint, b: GridPoint) {
    var dx, dy := b.x - a.x, b.y - a.y;
    (dy == 0 && (dx == -4 || dx == 4 || dx == -2 || dx == 2))
    || ((dx == -1 || dx == 1) && (dy == -2 || dy == 2))
  }

  /** One step of the walk from `last` along offset number `choice`; a
      coordinate that would leave the grid moves by the mirrored offset. */
  function RandomPoint(last: GridPoint, choice: int): (p: GridPoint)
    requires 0 <= choice < |Offsets|
    ensures IsStep(last, p)
    ensures InGrid(last) ==> InGrid(p)
    ensures 0 <= last.x + Offsets[choice].0 <= GridWidth ==> p.x == last.x + Offsets[choice].0
    ensures 0 <= last.y + Offsets[choice].1 <= GridHeight ==> p.y == last.y + Offsets[choice].1
    ensures !(0 <= last.x + Offsets[choice].0 <= GridWidth) ==> p.x == last.x - Offsets[choice].0
    ensures !(0 <= last.y + Offsets[choice].1 <= GridHeight) ==> p.y == last.y - Offsets[choice].1
  {
    var (dx, dy) := Offsets[choice];
    var x := last.x + dx;
    var x' := if x < 0 || x > GridWidth then x - dx * 2 else x;
    var y := last.y + dy;
    var y' := if y < 0 || y > GridHeight then y - dy * 2 else y;
    GridPoint(x', y')
  }

  // ---------------------------------------------------------------------
  // Element generation

  /** The draws that generate one element, in the order the generator makes
      them: the segment type, up to three walk steps, the palette index, the
      uniform sample behind the stroke width and the split coin. */
  datatype Roll = Roll(
    segmentType: int,
    firstStep: int,
    secondStep: int,
    thirdStep: int,
    paletteIndex: int,
    unit: real,
    split: bool)

  predicate ValidRoll(roll: Roll) {
    && 0 <= roll.segmentType < 4
    && 0 <= roll.firstStep < |Offsets|
    && 0 <= roll.secondStep < |Offsets|
    && 0 <= roll.thirdStep < |Offsets|
    && 0 <= roll.paletteIndex < |Palette|
    && 0.0 <= roll.unit < 1.0
  }

  predicate ValidRolls(rolls: seq<Roll>) {
    forall i :: 0 <= i < |rolls| ==> ValidRoll(rolls[i])
  }

  /** Multiplying by a factor in [0, 1] does not grow a non-negative number. */
  lemma ScaleDown(p: real, u: real)
    requires 0.0 <= p && 0.0 <= u <= 1.0
    ensures 0.0 <= p * u <= p
  {
    assert p - p * u == p * (1.0 - u);
  }

  /** pow(u, 5) * 20 + 1 on exact reals: biased towards thin strokes. */
  function StrokeWidth(u: real): (w: real)
    requires 0.0 <= u < 1.0
    ensures 1.0 <= w < 21.0
  {
    ScaleDown(u, u);
    ScaleDown(u * u, u * u);
    ScaleDown(u * u * (u * u), u);
    u * u * (u * u) * u * 20.0 + 1.0
  }

  /** The shape of an element as the walk builds it: every point needed by
      its kind is one step from the point before it (both later points of a
      Cubic step from its first control point) and unused points keep their
      default value. */
  predicate WalkShape(e: Element) {
    match e.kind
    case Line => IsStep(e.start, e.end) && e.control1 == Origin && e.control2 == Origin
    case Quad => IsStep(e.start, e.control1) && IsStep(e.control1, e.end) && e.control2 == Origin
    case Cubic =>
      IsStep(e.start, e.control1) && IsStep(e.control1, e.control2) && IsStep(e.control1, e.end)
  }

  predicate ElementInGrid(e: Element) {
    InGrid(e.start) && InGrid(e.control1) && InGrid(e.control2) && InGrid(e.end)
  }

  /** A new element starting at `last`: Line for segment types 0 and 1, Quad
      for 2, Cubic for 3. */
  function CreateRandomElement(last: GridPoint, roll: Roll): (e: Element)
    requires ValidRoll(roll)
    ensures e.start == last
    ensures e.kind == (if roll.segmentType < 2 then Line else if roll.segmentType == 2 then Quad else Cubic)
    ensures WalkShape(e)
    ensures InGrid(last) ==> ElementInGrid(e)
    ensures e.color in Palette && 1.0 <= e.width < 21.0 && e.split == roll.split
  {
    var next := RandomPoint(last, roll.firstStep);
    var color := Palette[roll.paletteIndex];
    var width := StrokeWidth(roll.unit);
    if roll.segmentType < 2 then
      Element(Line, last, Origin, Origin, next, color, width, roll.split)
    else if roll.segmentType == 2 then
      Element(Quad, last, next, Origin, RandomPoint(next, roll.secondStep), color, width, roll.split)
    else
      Element(Cubic, last, next, RandomPoint(next, roll.secondStep),
              RandomPoint(next, roll.thirdStep), color, width, roll.split)
  }

  // ---------------------------------------------------------------------
  // The chain and its resizing

  /** Where the next element starts: the end of the last element, or the
      grid centre when the chain is empty. */
  function Cursor(elements: seq<Element>): GridPoint {
    if elements == [] then GridCenter else elements[|elements| - 1].end
  }

  /** Each element starts where the one before it ends. */
  predicate Chained(elements: seq<Element>) {
    forall i :: 0 < i < |elements| ==> elements[i - 1].end == elements[i].start
  }

  /** What every element the generator produced satisfies, whatever its
      split flag. */
  predicate Generated(e: Element) {
    WalkShape(e) && ElementInGrid(e) && e.color in Palette && 1.0 <= e.width < 21.0
  }

  /** The scene invariant: one continuous chain from the grid centre, every
      element a generated one. */
  predicate WellFormed(elements: seq<Element>) {
    && (elements != [] ==> elements[0].start == GridCenter)
    && Chained(elements)
    && forall i :: 0 <= i < |elements| ==> Generated(elements[i])
  }

  /** The chain after appending one generated element per roll, each
      starting at the cursor left by the previous one. */
  function Extend(elements: seq<Element>, rolls: seq<Roll>): (r: seq<Element>)
    requires ValidRolls(rolls)
    ensures |r| == |elements| + |rolls|
    decreases |rolls|
  {
    if rolls == [] then elements
    else
      var before := Extend(elements, rolls[..|rolls| - 1]);
      before + [CreateRandomElement(Cursor(before), rolls[|rolls| - 1])]
  }

  lemma {:induction false} ExtendKeepsPrefix(elements: seq<Element>, rolls: seq<Roll>)
    requires ValidRolls(rolls)
    ensures |Extend(elements, rolls)| == |elements| + |rolls|
    ensures Extend(elements, rolls)[..|elements|] == elements
    decreases |rolls|
  {
    if rolls != [] {
      var before := Extend(elements, rolls[..|rolls| - 1]);
      ExtendKeepsPrefix(elements, rolls[..|rolls| - 1]);
      assert Extend(elements, rolls)[..|elements|] == before[..|elements|];
    }
  }

  lemma {:induction false} ExtendWellFormed(elements: seq<Element>, rolls: seq<Roll>)
    requires ValidRolls(rolls) && WellFormed(elements)
    ensures WellFormed(Extend(elements, rolls))
    decreases |rolls|
  {
    if rolls != [] {
      var before := Extend(elements, rolls[..|rolls| - 1]);
      ExtendWellFormed(elements, rolls[..|rolls| - 1]);
      var e := CreateRandomElement(Cursor(before), rolls[|rolls| - 1]);
      assert InGrid(Cursor(before)) by {
        if before != [] { assert Generated(before[|before| - 1]); }
      }
      var after := before + [e];
      assert after[|before|] == e;
      forall i | 0 <= i < |after| ensures Generated(after[i]) {
        if i < |before| { assert after[i] == before[i]; }
      }
      forall i | 0 < i < |after| ensures after[i - 1].end == after[i].start {
        if i < |before| { assert after[i - 1] == before[i - 1] && after[i] == before[i]; }
      }
    }
  }

  /** Extending by one more roll appends exactly one element, generated from
      the cursor the shorter extension left. */
  lemma ExtendSnoc(elements: seq<Element>, rolls: seq<Roll>, k: int)
    requires ValidRolls(rolls) && 0 <= k < |rolls|
    ensures Extend(elements, rolls[..k + 1]) ==
      Extend(elements, rolls[..k]) + [CreateRandomElement(Cursor(Extend(elements, rolls[..k])), rolls[k])]
  {
    assert rolls[..k + 1][..k] == rolls[..k];
  }

  /** The growth loop of a resize: appends one generated element per roll,
      each starting at the cursor the previous one left. */
  method AppendElements(elements: seq<Element>, rolls: seq<Roll>)
    returns (chain: seq<Element>, cursor: GridPoint)
    requires ValidRolls(rolls)
    ensures chain == Extend(elements, rolls)
    ensures cursor == Cursor(chain)
  {
    chain := elements;
    cursor := Cursor(elements);
    assert rolls[..0] == [];
    var i := 0;
    while i < |rolls|
      invariant 0 <= i <= |rolls|
      invariant chain == Extend(elements, rolls[..i])
      invariant cursor == Cursor(chain)
    {
      ExtendSnoc(elements, rolls, i);
      var element := CreateRandomElement(cursor, rolls[i]);
      chain := chain + [element];
      cursor := element.end;
      i := i + 1;
    }
    assert rolls[..|rolls|] == rolls;
  }

  /** The chain after a resize to `count` elements: unchanged when the count
      is already right, truncated when it shrinks, extended when it grows. */
  function Resized(elements: seq<Element>, count: int, rolls: seq<Roll>): (r: seq<Element>)
    requires 0 <= count && ValidRolls(rolls)
    requires count > |elements| ==> |rolls| >= count - |elements|
    ensures |r| == count
    ensures count <= |elements| ==> r == elements[..count]
    ensures count >= |elements| ==> r[..|elements|] == elements
    ensures WellFormed(elements) ==> WellFormed(r)
  {
    if count == |elements| then elements
    else if count < |elements| then elements[..count]
    else
      var added := rolls[..count - |elements|];
      ExtendKeepsPrefix(elements, added);
      if WellFormed(elements) then ExtendWellFormed(elements, added); Extend(elements, added)
      else Extend(elements, added)
  }

  /** Growing from empty starts the chain at the grid centre; growing a
      non-empty chain continues it from its last end. */
  lemma {:induction false} GrowthContinuesChain(elements: seq<Element>, count: int, rolls: seq<Roll>)
    requires ValidRolls(rolls) && |elements| < count <= |elements| + |rolls|
    ensures Resized(elements, count, rolls)[|elements|].start == Cursor(elements)
  {
    var added := rolls[..count - |elements|];
    ExtendFirstNew(elements, added);
  }

  lemma {:induction false} ExtendFirstNew(elements: seq<Element>, rolls: seq<Roll>)
    requires ValidRolls(rolls) && rolls != []
    ensures |Extend(elements, rolls)| > |elements|
    ensures Extend(elements, rolls)[|elements|].start == Cursor(elements)
    decreases |rolls|
  {
    ExtendKeepsPrefix(elements, rolls);
    var before := Extend(elements, rolls[..|rolls| - 1]);
    ExtendKeepsPrefix(elements, rolls[..|rolls| - 1]);
    if |rolls| > 1 {
      ExtendFirstNew(elements, rolls[..|rolls| - 1]);
      assert Extend(elements, rolls)[|elements|] == before[|elements|];
    } else {
      assert before == elements;
    }
  }

  // ---------------------------------------------------------------------
  // One frame: the drawing operations issued for the chain

  /** The abstract drawing surface the renderer talks to, on grid points. */
  datatype DrawOp =
    | Clear(color: bv32)
    | MoveTo(point: GridPoint)
    | LineTo(end: GridPoint)
    | QuadTo(control: GridPoint, end: GridPoint)
    | CubicTo(control1: GridPoint, control2: GridPoint, end: GridPoint)
    | DrawPath(color: bv32, width: real)

  predicate IsSegment(op: DrawOp) {
    op.LineTo? || op.QuadTo? || op.CubicTo?
  }

  /** The segment an element appends to the open path. */
  function SegmentOp(e: Element): (op: DrawOp)
    ensures IsSegment(op)
  {
    match e.kind
    case Line => LineTo(e.end)
    case Quad => QuadTo(e.control1, e.end)
    case Cubic => CubicTo(e.control1, e.control2, e.end)
  }

  /** Element `i` ends a stroked sub-path. */
  predicate Finalizes(elements: seq<Element>, i: int)
    requires 0 <= i < |elements|
  {
    elements[i].split || i == |elements| - 1
  }

  /** Element `i` begins a new sub-path: it is the first, or the one before
      it ended a sub-path. */
  predicate Opens(elements: seq<Element>, i: int)
    requires 0 <= i < |elements|
  {
    i == 0 || Finalizes(elements, i - 1)
  }

  /** `trace` followed by the operations the renderer issues for element
      `i`: a move to its start when a sub-path begins here, its segment, and
      one stroke of the accumulated path in its colour and width when it
      finalises. */
  function Emit(trace: seq<DrawOp>, elements: seq<Element>, i: int): seq<DrawOp>
    requires 0 <= i < |elements|
  {
    var started := if Opens(elements, i) then trace + [MoveTo(elements[i].start)] else trace;
    var segmented := started + [SegmentOp(elements[i])];
    if Finalizes(elements, i) then segmented + [DrawPath(elements[i].color, elements[i].width)]
    else segmented
  }

  /** The operations of a frame up to and including element `n - 1`: one
      clear, then the batched paths. */
  function FrameTrace(elements: seq<Element>, n: int): seq<DrawOp>
    requires 0 <= n <= |elements|
  {
    if n == 0 then [Clear(BackgroundColor)] else Emit(FrameTrace(elements, n - 1), elements, n - 1)
  }

  /** A whole frame (only the clear for an empty chain). */
  function RenderTrace(elements: seq<Element>): seq<DrawOp> {
    FrameTrace(elements, |elements|)
  }
  /** Handling one element only appends to the frame: the operations so far
      are kept, and the last new one is the element's stroke when it
      finalises, its segment otherwise. */
  lemma EmitAppends(trace: seq<DrawOp>, elements: seq<Element>, i: int)
    requires 0 <= i < |elements|
    ensures var r := Emit(trace, elements, i);
      && |trace| < |r| && r[..|trace|] == trace
      && r[|r| - 1] == if Finalizes(elements, i) then DrawPath(elements[i].color, elements[i].width)
         else SegmentOp(elements[i])
  {
  }

  /** Every frame begins with the clear and emits at least one operation
      per element handled. */
  lemma {:induction false} FrameStartsWithClear(elements: seq<Element>, n: int)
    requires 0 <= n <= |elements|
    ensures n < |FrameTrace(elements, n)| && FrameTrace(elements, n)[0] == Clear(BackgroundColor)
  {
    if n > 0 {
      FrameStartsWithClear(elements, n - 1);
      EmitAppends(FrameTrace(elements, n - 1), elements, n - 1);
    }
  }


  /** The chain after a frame: element `i` has its split flag toggled when
      `flips[i]` holds and `i < n`, and nothing else changes. */
  function FlipSplits(elements: seq<Element>, flips: seq<bool>, n: int): (r: seq<Element>)
    requires |flips| == |elements| && 0 <= n <= |elements|
    ensures |r| == |elements|
    ensures forall i :: 0 <= i < |r| ==> r[i] == elements[i].(split := r[i].split)
    ensures forall i :: 0 <= i < |r| ==> r[i].split == (elements[i].split != (i < n && flips[i]))
  {
    seq(|elements|, i requires 0 <= i < |elements| =>
      if i < n && flips[i] then elements[i].(split := !elements[i].split) else elements[i])
  }

  /** Handling element `n` toggles its flag when its flip is drawn and
      leaves the rest of the chain as it was. */
  lemma FlipSplitsStep(elements: seq<Element>, flips: seq<bool>, n: int)
    requires |flips| == |elements| && 0 <= n < |elements|
    ensures FlipSplits(elements, flips, n)[n] == elements[n]
    ensures FlipSplits(elements, flips, n + 1) ==
      if flips[n] then FlipSplits(elements, flips, n)[n := elements[n].(split := !elements[n].split)]
      else FlipSplits(elements, flips, n)
  {
  }

  lemma FlipSplitsKeepsWellFormed(elements: seq<Element>, flips: seq<bool>, n: int)
    requires |flips| == |elements| && 0 <= n <= |elements| && WellFormed(elements)
    ensures WellFormed(FlipSplits(elements, flips, n))
    ensures Cursor(FlipSplits(elements, flips, n)) == Cursor(elements)
  {
    var r := FlipSplits(elements, flips, n);
    if r != [] {
      assert r[|r| - 1].end == elements[|elements| - 1].end;
    }
    forall i | 0 <= i < |r| ensures Generated(r[i]) {
      assert Generated(elements[i]);
    }
  }

  // ---- how many strokes a frame draws

  function CountDraws(trace: seq<DrawOp>): nat {
    if trace == [] then 0
    else CountDraws(trace[..|trace| - 1]) + (if trace[|trace| - 1].DrawPath? then 1 else 0)
  }

  lemma CountDrawsSnoc(trace: seq<DrawOp>, op: DrawOp)
    ensures CountDraws(trace + [op]) == CountDraws(trace) + (if op.DrawPath? then 1 else 0)
  {
    assert (trace + [op])[..|trace|] == trace;
  }

  /** How many of the first `n` elements end a sub-path. */
  function FinalizeCount(elements: seq<Element>, n: int): nat
    requires 0 <= n <= |elements|
  {
    if n == 0 then 0
    else FinalizeCount(elements, n - 1) + (if Finalizes(elements, n - 1) then 1 else 0)
  }

  /** Element `i` adds one stroke when it finalises and none otherwise. */
  lemma CountDrawsEmit(trace: seq<DrawOp>, elements: seq<Element>, i: int)
    requires 0 <= i < |elements|
    ensures CountDraws(Emit(trace, elements, i)) ==
      CountDraws(trace) + (if Finalizes(elements, i) then 1 else 0)
  {
    var e := elements[i];
    var started := if Opens(elements, i) then trace + [MoveTo(e.start)] else trace;
    if Opens(elements, i) {
      CountDrawsSnoc(trace, MoveTo(e.start));
    }
    CountDrawsSnoc(started, SegmentOp(e));
    if Finalizes(elements, i) {
      CountDrawsSnoc(started + [SegmentOp(e)], DrawPath(e.color, e.width));
    }
  }

  /** A frame's clear is not a stroke. */
  lemma ClearIsNoStroke(elements: seq<Element>)
    ensures CountDraws(FrameTrace(elements, 0)) == 0
  {
    CountDrawsSnoc([], Clear(BackgroundColor));
    assert [] + [Clear(BackgroundColor)] == FrameTrace(elements, 0);
  }

  /** Element `n - 1` adds one stroke to the frame when it finalises. */
  lemma DrawCountStep(elements: seq<Element>, n: int)
    requires 0 < n <= |elements|
    ensures CountDraws(FrameTrace(elements, n)) ==
      CountDraws(FrameTrace(elements, n - 1)) + (if Finalizes(elements, n - 1) then 1 else 0)
  {
    CountDrawsEmit(FrameTrace(elements, n - 1), elements, n - 1);
  }

  /** One stroke per finalising element, and no other. */
  lemma {:induction false} DrawCountIsFinalizeCount(elements: seq<Element>, n: int)
    requires 0 <= n <= |elements|
    ensures CountDraws(FrameTrace(elements, n)) == FinalizeCount(elements, n)
  {
    if n == 0 {
      ClearIsNoStroke(elements);
    } else {
      DrawCountIsFinalizeCount(elements, n - 1);
      DrawCountStep(elements, n);
    }
  }

  /** An empty scene is only cleared. */
  lemma EmptyFrame()
    ensures RenderTrace([]) == [Clear(BackgroundColor)]
    ensures CountDraws(RenderTrace([])) == 0
  {
    CountDrawsSnoc([], Clear(BackgroundColor));
    assert [] + [Clear(BackgroundColor)] == [Clear(BackgroundColor)];
  }

  lemma {:induction false} FinalizeCountNoSplits(elements: seq<Element>, n: int)
    requires 0 <= n <= |elements|
    requires forall i :: 0 <= i < |elements| ==> !elements[i].split
    ensures FinalizeCount(elements, n) == if n == |elements| && n > 0 then 1 else 0
  {
    if n > 0 { FinalizeCountNoSplits(elements, n - 1); }
  }

  lemma {:induction false} FinalizeCountAllSplits(elements: seq<Element>, n: int)
    requires 0 <= n <= |elements|
    requires forall i :: 0 <= i < |elements| ==> elements[i].split
    ensures FinalizeCount(elements, n) == n
  {
    if n > 0 { FinalizeCountAllSplits(elements, n - 1); }
  }

  /** With no split flag set a non-empty chain is stroked as one path. */
  lemma NoSplitsOneStroke(elements: seq<Element>)
    requires elements != []
    requires forall i :: 0 <= i < |elements| ==> !elements[i].split
    ensures CountDraws(RenderTrace(elements)) == 1
  {
    DrawCountIsFinalizeCount(elements, |elements|);
    FinalizeCountNoSplits(elements, |elements|);
  }

  /** With every split flag set each element is its own stroke. */
  lemma AllSplitsOneStrokeEach(elements: seq<Element>)
    requires forall i :: 0 <= i < |elements| ==> elements[i].split
    ensures CountDraws(RenderTrace(elements)) == |elements|
  {
    DrawCountIsFinalizeCount(elements, |elements|);
    FinalizeCountAllSplits(elements, |elements|);
  }

  // ---- the segments of a frame are the elements, once each, in order

  function Segments(trace: seq<DrawOp>): seq<DrawOp> {
    if trace == [] then []
    else Segments(trace[..|trace| - 1]) + (if IsSegment(trace[|trace| - 1]) then [trace[|trace| - 1]] else [])
  }

  lemma SegmentsSnocSegment(trace: seq<DrawOp>, op: DrawOp)
    requires IsSegment(op)
    ensures Segments(trace + [op]) == Segments(trace) + [op]
  {
    assert (trace + [op])[..|trace|] == trace;
  }

  lemma SegmentsSnocOther(trace: seq<DrawOp>, op: DrawOp)
    requires !IsSegment(op)
    ensures Segments(trace + [op]) == Segments(trace)
  {
    assert (trace + [op])[..|trace|] == trace;
    assert Segments(trace) + [] == Segments(trace);
  }

  /** The segments of the elements before `n`, in chain order. */
  function ChainSegments(elements: seq<Element>, n: int): (r: seq<DrawOp>)
    requires 0 <= n <= |elements|
    ensures |r| == n && forall i :: 0 <= i < n ==> r[i] == SegmentOp(elements[i])
  {
    if n == 0 then [] else ChainSegments(elements, n - 1) + [SegmentOp(elements[n - 1])]
  }

  /** The segments element `i` contributes: exactly its own. */
  lemma SegmentsEmit(trace: seq<DrawOp>, elements: seq<Element>, i: int)
    requires 0 <= i < |elements|
    ensures Segments(Emit(trace, elements, i)) == Segments(trace) + [SegmentOp(elements[i])]
  {
    var e := elements[i];
    var started := if Opens(elements, i) then trace + [MoveTo(e.start)] else trace;
    if Opens(elements, i) {
      SegmentsSnocOther(trace, MoveTo(e.start));
    }
    assert Segments(started) == Segments(trace);
    SegmentsSnocSegment(started, SegmentOp(e));
    if Finalizes(elements, i) {
      SegmentsSnocOther(started + [SegmentOp(e)], DrawPath(e.color, e.width));
    }
  }

  lemma ClearHasNoSegments()
    ensures Segments([Clear(BackgroundColor)]) == []
  {
    SegmentsSnocOther([], Clear(BackgroundColor));
    assert [] + [Clear(BackgroundColor)] == [Clear(BackgroundColor)];
  }

  /** Element `n - 1` adds its own segment to the frame's segments. */
  lemma SegmentsStep(elements: seq<Element>, n: int)
    requires 0 < n <= |elements|
    ensures Segments(FrameTrace(elements, n)) ==
      Segments(FrameTrace(elements, n - 1)) + [SegmentOp(elements[n - 1])]
  {
    SegmentsEmit(FrameTrace(elements, n - 1), elements, n - 1);
  }

  lemma {:induction false} FrameSegments(elements: seq<Element>, n: int)
    requires 0 <= n <= |elements|
    ensures Segments(FrameTrace(elements, n)) == ChainSegments(elements, n)
  {
    if n == 0 {
      ClearHasNoSegments();
    } else {
      FrameSegments(elements, n - 1);
      SegmentsStep(elements, n);
    }
  }

  /** A frame walks the chain once: its segments are exactly the elements'
      segments, in chain order. */
  lemma RenderSegments(elements: seq<Element>)
    ensures Segments(RenderTrace(elements)) == ChainSegments(elements, |elements|)
  {
    FrameSegments(elements, |elements|);
  }

  // ---- every frame is well bracketed: no empty stroke, no dangling path

  /** The path builder between operations: no open path, an open path with
      some segments appended, or a misuse. */
  datatype PathState = Closed | Open(segments: nat) | Misused

  function PathStep(st: PathState, op: DrawOp): PathState {
    match op
    case Clear(_) => if st == Closed then Closed else Misused
    case MoveTo(_) => if st == Closed then Open(0) else Misused
    case DrawPath(_, _) => if st.Open? && st.segments > 0 then Closed else Misused
    case _ => if st.Open? then Open(st.segments + 1) else Misused
  }

  /** The path builder's state after a sequence of operations. */
  function Scan(trace: seq<DrawOp>): PathState {
    if trace == [] then Closed else PathStep(Scan(trace[..|trace| - 1]), trace[|trace| - 1])
  }

  lemma ScanSnoc(trace: seq<DrawOp>, op: DrawOp)
    ensures Scan(trace + [op]) == PathStep(Scan(trace), op)
  {
    assert (trace + [op])[..|trace|] == trace;
  }

  /** Element `i` keeps the path builder in step: it opens a path only when
      none is open, appends one segment, and strokes a non-empty path exactly
      when it finalises. */
  lemma ScanEmit(trace: seq<DrawOp>, elements: seq<Element>, i: int)
    requires 0 <= i < |elements|
    requires Opens(elements, i) ==> Scan(trace) == Closed
    requires !Opens(elements, i) ==> Scan(trace).Open? && Scan(trace).segments > 0
    ensures Finalizes(elements, i) ==> Scan(Emit(trace, elements, i)) == Closed
    ensures !Finalizes(elements, i) ==>
      Scan(Emit(trace, elements, i)).Open? && Scan(Emit(trace, elements, i)).segments > 0
  {
    var e := elements[i];
    var started := if Opens(elements, i) then trace + [MoveTo(e.start)] else trace;
    if Opens(elements, i) {
      ScanSnoc(trace, MoveTo(e.start));
    }
    ScanSnoc(started, SegmentOp(e));
    if Finalizes(elements, i) {
      ScanSnoc(started + [SegmentOp(e)], DrawPath(e.color, e.width));
    }
  }

  /** After element `n - 1` the path is closed exactly when that element
      finalised, and otherwise open with at least one segment. */
  lemma {:induction false} FrameScan(elements: seq<Element>, n: int)
    requires 0 <= n <= |elements|
    ensures n == 0 || Finalizes(elements, n - 1) ==> Scan(FrameTrace(elements, n)) == Closed
    ensures n > 0 && !Finalizes(elements, n - 1) ==>
      Scan(FrameTrace(elements, n)).Open? && Scan(FrameTrace(elements, n)).segments > 0
  {
    if n == 0 {
      ScanSnoc([], Clear(BackgroundColor));
      assert [] + [Clear(BackgroundColor)] == FrameTrace(elements, 0);
    } else {
      FrameScan(elements, n - 1);
      ScanEmit(FrameTrace(elements, n - 1), elements, n - 1);
    }
  }

  /** Every frame leaves the path builder closed and never misuses it: each
      sub-path is started by a move, has at least one segment when stroked,
      and is stroked before the frame ends. */
  lemma RenderTraceBalanced(elements: seq<Element>)
    ensures Scan(RenderTrace(elements)) == Closed
  {
    FrameScan(elements, |elements|);
  }

  // ---------------------------------------------------------------------
  // From grid points to surface pixels

  /** The uniform scale and centring offsets that fit the (80 + 1) x (40 + 1)
      cell grid into a surface. */
  datatype Viewport = Viewport(scale: real, offsetX: real, offsetY: real)

  /** The largest uniform scale at which the grid fits, with the grid
      centred along the axis that has room to spare. */
  function FitGrid(width: real, height: real): (v: Viewport)
    requires 0.0 < width && 0.0 < height
    ensures 0.0 < v.scale
    ensures v.scale * (GridWidth + 1) as real <= width && v.scale * (GridHeight + 1) as real <= height
    ensures v.scale * (GridWidth + 1) as real == width || v.scale * (GridHeight + 1) as real == height
    ensures 0.0 <= v.offsetX && 2.0 * v.offsetX + v.scale * (GridWidth + 1) as real == width
    ensures 0.0 <= v.offsetY && 2.0 * v.offsetY + v.scale * (GridHeight + 1) as real == height
  {
    var scaleX := width / (GridWidth + 1) as real;
    var scaleY := height / (GridHeight + 1) as real;
    var scale := if scaleX < scaleY then scaleX else scaleY;
    Viewport(scale, (width - scale * (GridWidth + 1) as real) * 0.5,
             (height - scale * (GridHeight + 1) as real) * 0.5)
  }

  /** The pixel position of a grid point: the centre of its cell. */
  function ToPoint(p: GridPoint, v: Viewport): (r: (real, real))
    ensures 0.0 < v.scale ==>
      && v.offsetX + p.x as real * v.scale < r.0 < v.offsetX + (p.x + 1) as real * v.scale
      && v.offsetY + p.y as real * v.scale < r.1 < v.offsetY + (p.y + 1) as real * v.scale
  {
    (v.offsetX + (p.x as real + 0.5) * v.scale, v.offsetY + (p.y as real + 0.5) * v.scale)
  }

  /** Every grid point is drawn strictly inside the surface. */
  lemma {:induction false} GridPointInside(p: GridPoint, width: real, height: real)
    requires InGrid(p) && 0.0 < width && 0.0 < height
    ensures var (px, py) := ToPoint(p, FitGrid(width, height));
      0.0 < px < width && 0.0 < py < height
  {
    var v := FitGrid(width, height);
    CellInside(p.x, GridWidth, v.scale, v.offsetX, width);
    CellInside(p.y, GridHeight, v.scale, v.offsetY, height);
  }

  /** One axis of GridPointInside: a cell centre of a centred row of
      `cells + 1` cells lies inside the row's extent. */
  lemma CellInside(k: int, cells: int, scale: real, offset: real, extent: real)
    requires 0 <= k <= cells && 0.0 < scale && 0.0 <= offset
    requires 2.0 * offset + scale * (cells + 1) as real == extent
    ensures 0.0 < offset + (k as real + 0.5) * scale < extent
  {
    assert (k as real + 0.5) * scale <= (cells as real + 0.5) * scale;
  }
}
