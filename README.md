# MotionMark scene, renderers and frame pacing in Dafny

This project models the core of the MotionMark Skia samples:

- **The benchmark scene.** It exists twice, with the same logic:
  - the C# `MotionMarkNativeScene` of the Avalonia sample;
  - the C++ `MotionMarkLayer` of the standalone native renderer.

  The scene keeps a chain of line, quadratic and cubic segments on an 80 x 40 integer grid. Each segment starts where the previous one ends. Its length follows the complexity level in [0, 24]. One frame clears the surface and strokes the chain in batches. A batch ends at an element whose `split` flag is set, or at the last element.
- **The native renderer's application object.** Its idle tick clamps the clock delta to [1/240 s, 0.25 s] and reports frames per second every half second. Its command line may select the level with `--complexity=N`.
- **The two Avalonia controls.** `MotionMarkSurface` and `MotionMarkNativeSurface` share a frame-pacing state machine:
  - one animation-frame request at a time while attached;
  - frame deltas filtered to (0, 250) ms and averaged over 500 ms windows;
  - a render-failure flag that stops re-scheduling;
  - a render-error log that writes a repeated message once.
- **Two interop helpers:** ARGB colour packing and the native clip rectangle.

Randomness is an input. Every generated element consumes one `Scene.Roll`: the segment type, up to three walk steps, the palette index, the uniform sample behind the stroke width and the split coin. Every drawn element consumes one flip that decides whether its split flag toggles after the frame.

A frame is described as a trace of abstract drawing operations on grid points:
- a clear;
- a move to a point;
- a line, quad or cubic segment;
- a stroke of the current path in a colour and a width.

The pixel mapping of grid points is modelled on its own (`Scene.FitGrid`, `Scene.ToPoint`).

Modules:

| module | file | models |
|---|---|---|
| `Wrappers` | wrappers.dfy | the `Option` type |
| `Interop` | interop.dfy | `PackColor`, `SkRectNative.FromSize` |
| `Scene` | scene.dfy | what both scenes share: the count formula, the walk, element generation, the chain, the frame trace, the pixel mapping |
| `NativeScene` | native_scene.dfy | the C# scene class |
| `NativeApp` | native_app.dfy | the C++ layer and application classes |
| `CommandLine` | command_line.dfy | `parseComplexityArg` and the `atoi` it calls |
| `Pacing` | pacing.dfy | the controls' state machine as transition functions, its invariants and the detach finding |
| `Surfaces` | surfaces.dfy | the two control classes, each handler proved against `Pacing` |

All source paths below are relative to the repository root.

## Model

| member | source | states |
|---|---|---|
| Interop.PackColor | samples/MotionMark.SkiaSharp.Avalonia/Interop/SkiaNativeMethods.cs:85-87 | shifting the packed value right by 24, 16, 8 and 0 bits and masking with 0xFF gives back a, r, g and b |
| Interop.PackColorValue | samples/MotionMark.SkiaSharp.Avalonia/Interop/SkiaNativeMethods.cs:85-87 | the packed value equals a·2^24 + r·2^16 + g·2^8 + b as a 32-bit unsigned number |
| Interop.PackColorInjective | samples/MotionMark.SkiaSharp.Avalonia/Interop/SkiaNativeMethods.cs:85-87 | two byte quadruples that pack to the same colour are equal |
| Interop.OpaqueColor | samples/MotionMark.SkiaSharp.Avalonia/Interop/SkiaNativeMethods.cs:85-87 | with alpha 0xFF the packed colour is at least 0xFF000000 |
| Interop.FromSize | samples/MotionMark.SkiaSharp.Avalonia/Interop/SkiaNativeMethods.cs:98-105 | the rectangle has left = top = 0, width `width` and height `height` |
| Scene.Clamp | samples/MotionMark.SkiaSharp.Avalonia/Rendering/MotionMarkNativeScene.cs:55 | the result lies in [lo, hi]; it is lo for a value below lo, hi for a value above hi, and the value itself otherwise |
| Scene.ComputeElementCount | samples/MotionMark.SkiaSharp.Avalonia/Rendering/MotionMarkNativeScene.cs:216-225 | for every level in [0, 24] the count lies in [1000, 120000] |
| Scene.ElementCountMonotone | samples/MotionMark.SkiaNative/motionmark_app.cpp:169-175 | a higher level in [0, 24] never asks for fewer elements |
| Scene.ElementCountTable | samples/MotionMark.SkiaSharp.Avalonia/Rendering/MotionMarkNativeScene.cs:216-225 | the counts are 1000 at level 0, 9000 at the default level 8, 10000 at 9, 20000 at 10 and 110000 at 19; every level from 20 is capped at 120000 |
| Scene.RandomPoint | samples/MotionMark.SkiaSharp.Avalonia/Rendering/MotionMarkNativeScene.cs:227-244 | the result is one step (an offset, possibly mirrored per axis) from the input; a point inside [0,80]x[0,40] stays inside; an in-range coordinate moves by the offset itself, and a coordinate that would leave the grid moves by the mirrored offset instead |
| Scene.Extend | samples/MotionMark.SkiaSharp.Avalonia/Rendering/MotionMarkNativeScene.cs:162-177 | growing the chain by one generated element per roll adds exactly one element per roll |
| Scene.StrokeWidth | samples/MotionMark.SkiaSharp.Avalonia/Rendering/MotionMarkNativeScene.cs:211 | for a sample in [0, 1) the width u^5·20 + 1 lies in [1, 21) |
| Scene.CreateRandomElement | samples/MotionMark.SkiaSharp.Avalonia/Rendering/MotionMarkNativeScene.cs:180-214 | the element starts at the cursor; segment types 0-1 give a Line, 2 a Quad and 3 a Cubic; each point the kind uses is one step from the point it grows from (both later Cubic points from control1); unused points stay at the origin; from a point in the grid every point is in the grid; the colour is from the palette; the split flag is the coin |
| Scene.ExtendKeepsPrefix | samples/MotionMark.SkiaSharp.Avalonia/Rendering/MotionMarkNativeScene.cs:162-177 | growing by k rolls adds exactly k elements and leaves the old elements untouched as a prefix |
| Scene.ExtendWellFormed | samples/MotionMark.SkiaSharp.Avalonia/Rendering/MotionMarkNativeScene.cs:162-177 | growth keeps the chain invariant: it starts at the grid centre, each element starts where the previous one ends, and every element is a generated one inside the grid |
| Scene.Resized | samples/MotionMark.SkiaSharp.Avalonia/Rendering/MotionMarkNativeScene.cs:147-178 | the chain ends up with exactly `count` elements; a shrink keeps the first `count` elements; a growth keeps the old chain as a prefix; the chain invariant is preserved |
| Scene.GrowthContinuesChain | samples/MotionMark.SkiaSharp.Avalonia/Rendering/MotionMarkNativeScene.cs:162-170 | the first appended element starts at the old last end, or at the grid centre (40, 20) when growing from empty |
| Scene.FlipSplits | samples/MotionMark.SkiaSharp.Avalonia/Rendering/MotionMarkNativeScene.cs:130-133 | after a frame each element differs from before in its split flag at most, and that flag toggled exactly when its flip was drawn |
| Scene.FlipSplitsKeepsWellFormed | samples/MotionMark.SkiaSharp.Avalonia/Rendering/MotionMarkNativeScene.cs:130-133 | toggling split flags keeps the chain invariant and the cursor |
| Scene.AppendElements | samples/MotionMark.SkiaSharp.Avalonia/Rendering/MotionMarkNativeScene.cs:163-177 | the growth loop appends one generated element per roll, each starting where the previous one ended, giving `Extend(elements, rolls)`; the returned cursor is the end of the new last element |
| Scene.DrawCountIsFinalizeCount | samples/MotionMark.SkiaSharp.Avalonia/Rendering/MotionMarkNativeScene.cs:120-128 | a frame strokes exactly once per element that has its split flag (before any toggle) or is last |
| Scene.EmitAppends | samples/MotionMark.SkiaSharp.Avalonia/Rendering/MotionMarkNativeScene.cs:83-134 | handling one element only appends to the frame: the operations so far are kept, and the last new one is the element's stroke when it finalises and its segment otherwise |
| Scene.FrameStartsWithClear | samples/MotionMark.SkiaSharp.Avalonia/Rendering/MotionMarkNativeScene.cs:83-134 | a frame begins with the clear in the background colour and has at least one operation per element handled |
| Scene.EmptyFrame | samples/MotionMark.SkiaSharp.Avalonia/Rendering/MotionMarkNativeScene.cs:67-70 | an empty chain produces only the clear and no stroke |
| Scene.NoSplitsOneStroke | samples/MotionMark.SkiaSharp.Avalonia/Rendering/MotionMarkNativeScene.cs:120-128 | a non-empty chain with no split flag is stroked once |
| Scene.AllSplitsOneStrokeEach | samples/MotionMark.SkiaSharp.Avalonia/Rendering/MotionMarkNativeScene.cs:120-128 | a chain with every split flag set is stroked once per element |
| Scene.RenderSegments | samples/MotionMark.SkiaSharp.Avalonia/Rendering/MotionMarkNativeScene.cs:83-118 | the segments of a frame are the elements' segments, each once, in chain order |
| Scene.RenderTraceBalanced | samples/MotionMark.SkiaNative/motionmark_app.cpp:112-148 | every sub-path begins with a move; no stroke is of an empty path; the path is closed when the frame ends |
| Scene.FitGrid | samples/MotionMark.SkiaNative/motionmark_app.cpp:99-107 | the scale is positive and the largest at which the 81 x 41 cells fit (one axis is filled exactly); the offsets centre the grid on both axes |
| Scene.GridPointInside | samples/MotionMark.SkiaSharp.Avalonia/Rendering/MotionMarkNativeScene.cs:276-281 | every grid point maps strictly inside the surface |
| Scene.ToPoint | samples/MotionMark.SkiaSharp.Avalonia/Rendering/MotionMarkNativeScene.cs:276-281 | at a positive scale a grid point maps strictly inside its own cell, on both axes |
| NativeScene.MotionMarkNativeScene.constructor | samples/MotionMark.SkiaSharp.Avalonia/Rendering/MotionMarkNativeScene.cs:33-48 | a new scene is empty, at level 8, with the cursor at the grid centre, not disposed |
| NativeScene.MotionMarkNativeScene.SetComplexity | samples/MotionMark.SkiaSharp.Avalonia/Rendering/MotionMarkNativeScene.cs:53-61 | the level becomes the clamped value; an unchanged level leaves the elements as they are; a new level resizes the chain to that level's count |
| NativeScene.MotionMarkNativeScene.Resize | samples/MotionMark.SkiaSharp.Avalonia/Rendering/MotionMarkNativeScene.cs:147-178 | the elements become `Resized(old elements, count, rolls)`; the cursor is the new last end; the chain invariant holds |
| NativeScene.MotionMarkNativeScene.Render | samples/MotionMark.SkiaSharp.Avalonia/Rendering/MotionMarkNativeScene.cs:63-135 | the chain is first resized to the level's count. On a live scene the trace is the frame of that chain and the only later change is the split flips. On a disposed scene the frame stops after the clear |
| NativeScene.MotionMarkNativeScene.Dispose | samples/MotionMark.SkiaSharp.Avalonia/Rendering/MotionMarkNativeScene.cs:137-145 | the native objects are released exactly once; a second call changes nothing |
| NativeScene.StrokeChain | samples/MotionMark.SkiaSharp.Avalonia/Rendering/MotionMarkNativeScene.cs:83-134 | the batching loop produces exactly the frame trace of the chain and the chain with its flags flipped |
| NativeApp.AtLeastOne | samples/MotionMark.SkiaNative/motionmark_app.cpp:86-89 | the stored dimension is at least 1 and equals the input when that is positive |
| NativeApp.MotionMarkLayer.constructor | samples/MotionMark.SkiaNative/motionmark_app.cpp:72-84 | a new layer is at level 8 with exactly 9000 elements generated from the grid centre, on a 1280 x 720 surface |
| NativeApp.MotionMarkLayer.OnResize | samples/MotionMark.SkiaNative/motionmark_app.cpp:86-89 | the stored width and height are max(1, w) and max(1, h) |
| NativeApp.MotionMarkLayer.OnPaint | samples/MotionMark.SkiaNative/motionmark_app.cpp:91-154 | the trace is the frame of the chain, the same frame the C# scene draws, and only split flags change |
| NativeApp.MotionMarkLayer.SetComplexity | samples/MotionMark.SkiaNative/motionmark_app.cpp:156-163 | the level is clamped to [0, 24]; an unchanged level does not resize; a new level resizes to its count |
| NativeApp.MotionMarkLayer.ResizeElements | samples/MotionMark.SkiaNative/motionmark_app.cpp:177-202 | the elements become `Resized(old elements, targetCount, rolls)` and the chain invariant holds |
| NativeApp.PaintChain | samples/MotionMark.SkiaNative/motionmark_app.cpp:112-153 | the loop's trace is the frame trace. The guard on an empty path never skips a stroke, since the builder always holds the element's segment there |
| NativeApp.TickDelta | samples/MotionMark.SkiaNative/motionmark_app.cpp:336-339 | the delta lies in [1/240, 0.25]; it is 1/240 when less time elapsed, 0.25 when more elapsed, and the elapsed time otherwise |
| NativeApp.ReportedRateBounds | samples/MotionMark.SkiaNative/motionmark_app.cpp:343-347 | a completed half-second window holds at least two ticks, and its rate lies in [4, 240] frames per second |
| NativeApp.MotionMarkApplication.constructor | samples/MotionMark.SkiaNative/motionmark_app.cpp:275-277 | the application starts without a layer, with empty tick statistics and the requested level stored |
| NativeApp.MotionMarkApplication.Init | samples/MotionMark.SkiaNative/motionmark_app.cpp:279-333 | without a backend it fails and changes nothing. Otherwise it creates a layer, applies the requested level only when it is at least 0 (clamped), sizes the layer to the window and restarts the clock |
| NativeApp.MotionMarkApplication.OnIdle | samples/MotionMark.SkiaNative/motionmark_app.cpp:335-359 | adds the clamped delta and counts the tick. Once 0.5 s has accumulated and the layer exists, it reports frames/seconds with the layer's level and element count and resets both. The reported rate lies in [4, 240] |
| NativeApp.InitialComplexity | samples/MotionMark.SkiaNative/motionmark_app.cpp:320-323 | a negative argument keeps level 8; otherwise the argument clamped to [0, 24] |
| CommandLine.SkipSpaces | samples/MotionMark.SkiaNative/motionmark_app.cpp:375 | the result is a suffix of the input that does not start with white space, and everything dropped before it is white space |
| CommandLine.DigitRun | samples/MotionMark.SkiaNative/motionmark_app.cpp:375 | the run is all digits and is followed by a non-digit or the end |
| CommandLine.Atoi | samples/MotionMark.SkiaNative/motionmark_app.cpp:375 | the result is negative only when the text, after its leading white space, starts with a minus sign |
| CommandLine.AtoiReadsNumeral | samples/MotionMark.SkiaNative/motionmark_app.cpp:375 | atoi reads back the decimal numeral of every integer, whatever non-digit text follows it |
| CommandLine.AtoiSkipsSpace | samples/MotionMark.SkiaNative/motionmark_app.cpp:375 | leading white space does not change the value |
| CommandLine.AtoiWithoutNumber | samples/MotionMark.SkiaNative/motionmark_app.cpp:375 | text that starts with neither a sign nor a digit reads as 0 |
| CommandLine.NoPrefixNoComplexity | samples/MotionMark.SkiaNative/motionmark_app.cpp:370-379 | with no argument carrying `--complexity=` the result is -1 |
| CommandLine.SelectedComplexity | samples/MotionMark.SkiaNative/motionmark_app.cpp:370-379 | a command line holding only the program name gives -1, and any other result comes from an argument after the program name that carries `--complexity=` |
| CommandLine.SelectionHasPrefix | samples/MotionMark.SkiaNative/motionmark_app.cpp:370-379 | a result other than -1 from the search starting at any position comes from an argument at or after it that carries `--complexity=` |
| CommandLine.FirstPrefixDecides | samples/MotionMark.SkiaNative/motionmark_app.cpp:370-379 | the first argument carrying the prefix decides the result, whatever follows it |
| CommandLine.ParseComplexityArg | samples/MotionMark.SkiaNative/motionmark_app.cpp:370-379 | the search loop returns the level the command line selects |
| CommandLine.ProgramNameOnly | samples/MotionMark.SkiaNative/motionmark_app.cpp:370-379 | a command line with only the program name gives -1 |
| CommandLine.SelectsTwelve | samples/MotionMark.SkiaNative/motionmark_app.cpp:370-379 | `--complexity=12` gives 12 |
| CommandLine.ProgramNameSkipped | samples/MotionMark.SkiaNative/motionmark_app.cpp:373 | argv[0] is never read as an option |
| Pacing.RequestNextFrame | samples/MotionMark.SkiaSharp.Avalonia/Controls/MotionMarkSurface.cs:164-175 | a callback is registered exactly when the control is attached, has no pending request and has a top level; nothing else changes |
| Pacing.Attach | samples/MotionMark.SkiaSharp.Avalonia/Controls/MotionMarkSurface.cs:76-82 | attaching marks the control attached and requests a frame, registering one callback exactly when none is outstanding and there is a top level; nothing else changes |
| Pacing.Sample | samples/MotionMark.SkiaSharp.Avalonia/Controls/MotionMarkSurface.cs:184-202 | only the statistics window changes; without a previous timestamp or for a rejected delta nothing changes; reported statistics carry the given level and element count and reset the window |
| Pacing.AnimationFrame | samples/MotionMark.SkiaSharp.Avalonia/Controls/MotionMarkSurface.cs:177-211 | a delivered callback consumes one outstanding callback and registers at most one new one (exactly when the request flag ends set); the attachment and the failure state are unchanged; a detached control reports nothing and ends with no request; an attached one records the timestamp |
| Pacing.Detach | samples/MotionMark.SkiaSharp.Avalonia/Controls/MotionMarkSurface.cs:84-92 | as written, detaching clears the attached flag, the request flag, the timestamp and the statistics window, while the callbacks the host holds stay |
| Pacing.DetachKeepingRequest | samples/MotionMark.SkiaSharp.Avalonia/Controls/MotionMarkNativeSurface.cs:84-92 | the corrected detach: the same reset, but the request flag stays set until the held callback arrives |
| Pacing.ToggleMultithreading | samples/MotionMark.SkiaSharp.Avalonia/Controls/MotionMarkSurface.cs:67-73 | clears the failure flag and the last error, then requests a frame; the pacing fields are untouched |
| Pacing.BaseException | samples/MotionMark.SkiaSharp.Avalonia/Controls/MotionMarkSurface.cs:215 | the root of a chain of single inner exceptions has no inner exception, and is the exception itself when it has none |
| Pacing.ErrorMessage | samples/MotionMark.SkiaSharp.Avalonia/Controls/MotionMarkSurface.cs:215-217 | for an exception without inner exception the line is `[component] Error while stage: text` |
| Pacing.WrappedErrorMessage | samples/MotionMark.SkiaSharp.Avalonia/Controls/MotionMarkSurface.cs:215-217 | a wrapped exception is reported as its root, a new line, then the exception itself |
| Pacing.LogRenderError | samples/MotionMark.SkiaSharp.Avalonia/Controls/MotionMarkSurface.cs:213-223 | a message is written exactly when it differs from the last one, and it becomes the last one |
| Pacing.AfterRender | samples/MotionMark.SkiaSharp.Avalonia/Controls/MotionMarkSurface.cs:115-162 | the failure flag is set after a missing lease or canvas or an exception; it is cleared after a drawn frame and untouched when the target is empty; only an exception logs |
| Pacing.RepeatedFailureLoggedOnce | samples/MotionMark.SkiaSharp.Avalonia/Controls/MotionMarkSurface.cs:217-222 | the same failure twice in a row writes at most one line, and the second frame changes no state |
| Pacing.ManagedOutcome | samples/MotionMark.SkiaSharp.Avalonia/Controls/MotionMarkSurface.cs:115-162 | an empty target is skipped; a missing lease feature or canvas is a failure without a log; otherwise the frame draws unless a call throws, and the thrown exception is logged |
| Pacing.NativeOutcome | samples/MotionMark.SkiaSharp.Avalonia/Controls/MotionMarkNativeSurface.cs:115-171 | the same, and a zero canvas handle is a failure too |
| Pacing.SampleKeepsWindow | samples/MotionMark.SkiaSharp.Avalonia/Controls/MotionMarkSurface.cs:184-202 | without a previous timestamp, or for a delta outside (0, 250) ms, nothing changes. An accepted delta is added and counted. Stats are emitted exactly when the window reaches 500 ms: the average is the window's mean delta (in (0, 250)), fps·average = 1000 and fps > 4, then the window resets. The window stays below 500 ms, and count = 0 iff the total is 0 |
| Pacing.AnimationFrameEffects | samples/MotionMark.SkiaSharp.Avalonia/Controls/MotionMarkSurface.cs:177-211 | a detached callback only clears the request flag. An attached one records the timestamp and re-requests a frame exactly when rendering has not failed and there is a top level |
| Pacing.FiveFramesOfHundredMs | samples/MotionMark.SkiaSharp.Avalonia/Controls/MotionMarkNativeSurface.cs:193-210 | five 100 ms deltas emit once, on the fifth, with average 100 ms and 10 fps; the first four only accumulate |
| Pacing.AnimationFrameKeepsInvariant | samples/MotionMark.SkiaSharp.Avalonia/Controls/MotionMarkSurface.cs:177-211 | a callback keeps the window invariant, and a set request flag still has a held callback behind it |
| Pacing.AnimationFrameKeepsSingleChain | samples/MotionMark.SkiaSharp.Avalonia/Controls/MotionMarkNativeSurface.cs:186-220 | a callback keeps the host holding exactly one callback when the flag is set and none otherwise |
| Pacing.RunKeepsInvariant | samples/MotionMark.SkiaSharp.Avalonia/Controls/MotionMarkSurface.cs:64-92 | every event sequence on the code as written keeps the window invariant and "requested only while attached" |
| Pacing.RunCorrectedKeepsSingleChain | samples/MotionMark.SkiaSharp.Avalonia/Controls/MotionMarkSurface.cs:164-175 | with the corrected detach, at most one callback is ever outstanding, whatever the events |
| Pacing.InitialKeepsBoth | samples/MotionMark.SkiaSharp.Avalonia/Controls/MotionMarkSurface.cs:30-46 | a new control satisfies both invariants |
| Pacing.DetachReattachDoublesCallbacks | samples/MotionMark.SkiaSharp.Avalonia/Controls/MotionMarkSurface.cs:84-92 | as written, attach, detach, attach leaves two held callbacks, and a frame keeps two; the corrected detach leaves one |
| Surfaces.MotionMarkSurface.constructor | samples/MotionMark.SkiaSharp.Avalonia/Controls/MotionMarkSurface.cs:19-46 | a new control is at level 8, multithreaded unless in a browser, detached, with no failure |
| Surfaces.MotionMarkSurface.SetComplexity | samples/MotionMark.SkiaSharp.Avalonia/Controls/MotionMarkSurface.cs:19-24 | the stored level is the value clamped to [0, 24] |
| Surfaces.MotionMarkSurface.SetUseMultithreadedRendering | samples/MotionMark.SkiaSharp.Avalonia/Controls/MotionMarkSurface.cs:59-74 | a changed flag moves the state by ToggleMultithreading; an unchanged one leaves it |
| Surfaces.MotionMarkSurface.OnAttachedToVisualTree | samples/MotionMark.SkiaSharp.Avalonia/Controls/MotionMarkSurface.cs:76-82 | the state moves by Attach |
| Surfaces.MotionMarkSurface.OnDetachedFromVisualTree | samples/MotionMark.SkiaSharp.Avalonia/Controls/MotionMarkSurface.cs:84-92 | the state moves by the corrected detach, which keeps at most one callback outstanding |
| Surfaces.MotionMarkSurface.RequestNextFrame | samples/MotionMark.SkiaSharp.Avalonia/Controls/MotionMarkSurface.cs:164-175 | the state moves by Pacing.RequestNextFrame |
| Surfaces.MotionMarkSurface.OnAnimationFrame | samples/MotionMark.SkiaSharp.Avalonia/Controls/MotionMarkSurface.cs:177-211 | the new state and the emitted statistics are those of AnimationFrame, and the invariant holds |
| Surfaces.MotionMarkSurface.RenderFrame | samples/MotionMark.SkiaSharp.Avalonia/Controls/MotionMarkSurface.cs:115-162 | the failure flag and the log move by AfterRender of ManagedOutcome; the error stream grows by the written line only |
| Surfaces.MotionMarkSurface.LogRenderError | samples/MotionMark.SkiaSharp.Avalonia/Controls/MotionMarkSurface.cs:213-223 | writes the formatted message unless it repeats the last one |
| Surfaces.MotionMarkNativeSurface.constructor | samples/MotionMark.SkiaSharp.Avalonia/Controls/MotionMarkNativeSurface.cs:20-46 | a new control owns a fresh, empty scene at level 8, is detached and has no failure |
| Surfaces.MotionMarkNativeSurface.SetComplexity | samples/MotionMark.SkiaSharp.Avalonia/Controls/MotionMarkNativeSurface.cs:60-67 | the level is clamped; a changed level resizes the scene to its count, an unchanged one leaves the scene; pacing is untouched |
| Surfaces.MotionMarkNativeSurface.SetUseMultithreadedRendering | samples/MotionMark.SkiaSharp.Avalonia/Controls/MotionMarkNativeSurface.cs:68-73 | a changed flag moves the state by ToggleMultithreading |
| Surfaces.MotionMarkNativeSurface.OnAttachedToVisualTree | samples/MotionMark.SkiaSharp.Avalonia/Controls/MotionMarkNativeSurface.cs:76-82 | the state moves by Attach; handing the current level to the scene leaves its elements as they are |
| Surfaces.MotionMarkNativeSurface.OnDetachedFromVisualTree | samples/MotionMark.SkiaSharp.Avalonia/Controls/MotionMarkNativeSurface.cs:84-92 | the state moves by the corrected detach |
| Surfaces.MotionMarkNativeSurface.RequestNextFrame | samples/MotionMark.SkiaSharp.Avalonia/Controls/MotionMarkNativeSurface.cs:173-184 | the state moves by Pacing.RequestNextFrame |
| Surfaces.MotionMarkNativeSurface.OnAnimationFrame | samples/MotionMark.SkiaSharp.Avalonia/Controls/MotionMarkNativeSurface.cs:186-220 | the new state and the statistics (level, the scene's element count) are those of AnimationFrame |
| Surfaces.MotionMarkNativeSurface.RenderFrame | samples/MotionMark.SkiaSharp.Avalonia/Controls/MotionMarkNativeSurface.cs:115-171 | the flag and log move by AfterRender of NativeOutcome. On a drawn frame the scene renders its full frame; otherwise the scene is untouched and nothing is drawn |
| Surfaces.MotionMarkNativeSurface.LogRenderError | samples/MotionMark.SkiaSharp.Avalonia/Controls/MotionMarkNativeSurface.cs:222-232 | writes the formatted message unless it repeats the last one |

## Left out

- Skia foreign calls: the native path, paint and canvas calls, the SkiaSharp canvas and `SkPathBuilder` are replaced by the abstract draw trace. Save, restore, translate and clip are not traced.
- Scene.StrokeWidth: computed on exact reals; the single-precision `pow` and its rounding are not modelled.
- Scene.ToPoint: computed on exact reals; the single-precision arithmetic of the pixel mapping is not modelled, and the traces carry grid points rather than pixels.
- Random number generators: `System.Random` and `std::mt19937` are replaced by the roll and flip sequences the methods receive.
- NativeScene.MotionMarkNativeScene.Render: a frame on a disposed, non-empty scene throws `ObjectDisposedException` when the released path is reset; the model returns `completed == false` after the clear instead of an exception.
- NativeScene.MotionMarkNativeScene.Render: the `resetPath` parameter is left out, since every caller passes its default `true`.
- NativeScene.MotionMarkNativeScene.Dispose: the finalizer that calls it, and the handles it releases, are represented by a release counter only.
- NativeApp.MotionMarkApplication.Init: the window check and the backend fallback chain under preprocessor flags are one boolean input. The display parameters, title, `show` and `inval` are not modelled.
- NativeApp.MotionMarkApplication.OnIdle: the clock is a parameter in seconds; the formatted window title is represented by the values it shows.
- NativeApp.TickDelta, NativeApp.ReportedRateBounds and NativeApp.MotionMarkApplication.OnIdle: the elapsed seconds, the clamped tick and the accumulated time are exact reals instead of doubles. The 1/240 s floor and the [4, 240] frame-rate bound therefore hold only up to double rounding: the double `1.0 / 240.0` lies just below 1/240, so a run of minimum ticks closes the half-second window one tick later than on reals and can report a rate a rounding error above 240.
- `sk_app::Application::Create`, which creates the window and passes `parseComplexityArg`'s result to the application, is not modelled.
- CommandLine.Atoi: no overflow; a numeral beyond the range of `int` reads as its exact value, where C leaves the result undefined.
- Pacing.DeltaMs: TimeSpan ticks are exact integers, but the millisecond delta and the statistics are exact reals instead of doubles.
- Pacing.BaseException: only chains of plain exceptions, each with at most one inner exception, are modelled. A chain that contains an `AggregateException` is not modelled at all: its `GetBaseException` override stops at an aggregate of several inner exceptions, or at the first inner exception that is not itself an aggregate, where the model walks on to the innermost exception.
- Pacing.ErrorMessage: an exception is represented by its `ToString()` text and its inner exception; `Environment.NewLine` is taken to be `"\n"`.
- Surfaces.MotionMarkSurface.OnDetachedFromVisualTree: follows the corrected detach, which keeps the request flag. The code as written is `Pacing.Detach` (see Findings).
- Surfaces.MotionMarkNativeSurface.OnDetachedFromVisualTree: follows the corrected detach, as for the managed control.
- Surfaces.MotionMarkSurface.OnAnimationFrame: the element count the statistics carry is a parameter, because the managed scene `MotionMarkScene` is not part of this model.
- Surfaces.MotionMarkSurface.RenderFrame: the managed scene's drawing is not modelled; a frame that draws only clears the failure flag.
- Surfaces.MotionMarkNativeSurface.RenderFrame: an exception is modelled as raised by a canvas call before the scene draws, so a failed frame leaves the scene untouched. The scene is never disposed while the control is alive, because only the control's finalizer disposes it.
- Avalonia plumbing: `Render` and `context.Custom`, the draw-operation classes, `InvalidateVisual`, property registration and change notification, the `FrameStatsUpdated` event subscription and the finalizers. The top level is a boolean, the lease a value, and statistics are returned instead of raised.
- The browser check `OperatingSystem.IsBrowser()` is a constructor parameter.
- Multithreading: the flag has no concurrent behaviour in the code; only its reset of the failure state is modelled.

## Findings

| source | as written | input that shows it | evidently intended | confidence | as-written member | corrected member |
|---|---|---|---|---|---|---|
| samples/MotionMark.SkiaSharp.Avalonia/Controls/MotionMarkSurface.cs:84-92 (the same in MotionMarkNativeSurface.cs:84-92) | Detaching clears `_frameRequested` although the callback registered with the top level is still pending | Attach, detach, then attach again before the next frame: the second attach sees no request and registers another callback. Both callbacks then re-request on every frame, so two callback chains run for good and each frame invalidates twice | at most one animation-frame request outstanding per control | medium, not executed | Pacing.DetachReattachDoublesCallbacks | Pacing.RunCorrectedKeepsSingleChain |
