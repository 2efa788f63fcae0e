# SwiftCursesKit core, modelled in Dafny

SwiftCursesKit is a Swift toolkit for terminal applications built on
ncurses. An application describes its screen as a tree of scene nodes:
vertical and horizontal stacks, splits, padding, and widgets such as
titles, gauges, log views and status bars. A scene renderer measures the
tree, lays it out in the terminal's rectangle, collects draw commands in a
render buffer and flushes them to the screen. A runtime coordinator brings
the ncurses runtime up and down around the application's frame loop. An
event source turns key codes, characters and mouse reports into events. A
colour-pair registry hands out ncurses colour pairs for the colour
configurations that themes ask for. Two example applications (an
operations console and a dashboard) and the layout policy of an LLM layout
adapter complete the picture.

This project models that core in Dafny, one module per source component:

- `Geometry`, `SceneNodes`, `RenderBuffers`, `SceneBuilder`,
  `LayoutPrimitives`: sizes, points, rectangles, constraints, padding,
  split fractions, the scene tree and its result builder, and the render
  buffer (a class whose `Write` appends commands).
- `SceneMeasure`, `SpaceDistribution`, `SceneLayout`, `SceneRendering`,
  `BuiltinWidgets`: measuring, distributing free space among stack
  children, laying out stacks and splits, flushing draw commands, and the
  measure and render functions of the built-in widgets. The methods write
  into a `RenderBuffer` and are proved against pure functions that say what
  they draw.
- `EventStream`: key and mouse decoding and the `TerminalEventSource`
  flags, counters and polling loop.
- `CNCursesRuntime`, `RuntimeErrors`, `WindowHandles`,
  `RuntimeCoordination`: the native runtime's bootstrap and shutdown state
  machine, the call checker, error translation, the window handle's
  close-once behaviour, and the coordinator's start, run and stop.
- `Capabilities`, `Colors`, `ColorRegistry`: capability inspection,
  colours, pair configurations, themes and the pair registry.
- `DemoSupport`, `OperationsDemo`, `DashboardDemo`, `LLMAdapter`: the
  examples' text helpers, bounded logs, argument parsers and tick logic,
  and the adapter's clamping policy and fallback layout.

Native ncurses calls are oracles: their outcomes are parameters of the
methods that make them, and the calls made are recorded as sequences
of call records.

## Where the model follows the code rather than its tests or description

- Stack layout ignores the children's natural sizes. `distribute` starts
  each slot from an even split, cuts it to the slot's natural size, and
  then raises it to what is free minus one cell per later slot. Whenever
  there is at least one free cell per child, the first child therefore
  takes everything but one cell per later child
  (`SpaceDistribution.DistributeIgnoresNaturalSizes`). So the six-row
  vertical stack in Tests/SwiftCursesKitTests/SceneLayoutTests.swift:10-28
  places its second child at row 5 rather than row 3
  (`SceneLayout.TwoRowStackPlacements`). For the same reason the
  horizontal stack of lines 38-66 puts its second child at column 19
  rather than 5, and the stack of lines 68-97 puts its second child at
  row 11 rather than 2. Without the raise to the minimum, each child
  keeps its natural size (`SpaceDistribution.NaturalDistribute`): all
  three stacks then come out as their tests expect
  (`SpaceDistribution.NaturalSharesOfLayoutTests`), and the six-row stack
  places its children at rows 0 and 3, two rows each
  (`SceneLayout.NaturalTwoRowStackPlacements`). The rest of the model
  keeps the code's `distribute`.
- The colour-pair registry caches an identifier and moves its counter
  before calling `init_pair`, and it does not undo either when that call
  fails. The second request in Tests/SwiftCursesKitTests/ColorPairRegistryTests.swift:7-53
  therefore returns the cached pair 1 without ever initialising it
  (`ColorRegistry.FailedAllocationStaysCached`). With the entry and the
  identifier given back after the failure
  (`ColorRegistry.ColorPairRegistry.PairWithRollback`), the test's
  requests come out as it expects: code -1, then pair 1 initialised, then
  pair 1 from the cache (`ColorRegistry.FailedAllocationRollsBack`).
- `Int16(capabilities.colorPairCount)` traps for a pair count above 32767,
  as a 256-colour terminal reports 65536. The as-written `Pair` makes its
  callers supply a count that fits (`ColorRegistry.PairCountConvertible`),
  and `ColorRegistry.WidePaletteIsCapped` shows a 65536-pair palette
  failing that condition. Comparing the counter with the count clamped to
  `Int16.max` (`ColorRegistry.EvaluateClamped`,
  `ColorRegistry.ColorPairRegistry.PairClamped`) needs no such condition:
  for every pair count an allocation keeps the registry's invariant and
  hands out identifiers below 32767
  (`ColorRegistry.ClampedAllocationKeepsInvariant`), and wherever the
  conversion does not trap it decides as the code does
  (`ColorRegistry.EvaluateClampedAgrees`). The rest of the model keeps
  the code's `Pair`.
- A status bar given a frame with width but no rows still draws its text,
  on a row outside the frame (`BuiltinWidgets.StatusBarDrawsOutsideRowlessFrame`).
  Checking the height as the other widgets do keeps it inside every frame
  (`BuiltinWidgets.GuardedStatusBarStaysInFrame`).
- The mouse decoder checks a "drag" bit combination that its earlier
  branches always catch first, so no report decodes as a drag
  (`EventStream.NeverDragged`). With the drag check moved before the
  buttons, a position report with a button held decodes as a drag and
  nothing else changes (`EventStream.DragFirstDecodesDrags`).
- The repository as given does not compile as a whole.
  Sources/SwiftCursesKit/Runtime/Event.swift declares an `Event` with only
  tick and key cases and a `KeyEvent` with only a character case, while
  EventStream.swift emits mouse and resize events and builds named keys.
  `TerminalRuntimeError` is declared both in Runtime/TerminalRuntimeError.swift
  and in Sources/SwiftCursesKit/TerminalApp.swift. The coordinator calls
  `app.frameHandler`, which no declaration provides. The model follows the
  declarations that the runtime code uses, and treats the frame handler as
  a sequence of frame outcomes.
- `TerminalCapabilitiesInspector.inspect` asks the runtime twice whether
  it is headless; the model assumes both answers agree.

## Model

| member | source | states |
|---|---|---|
| Geometry.Rect.MaxX | Sources/SwiftCursesKit/Scene/Geometry.swift:41 | the right edge lies exactly one width past the left edge |
| Geometry.Rect.MaxY | Sources/SwiftCursesKit/Scene/Geometry.swift:42 | the bottom edge lies exactly one height below the top edge |
| Geometry.MakeSize | Sources/SwiftCursesKit/Scene/Geometry.swift:8-11 | a size keeps non-negative extents and turns negative ones into zero |
| Geometry.Constraints.Clamped | Sources/SwiftCursesKit/Scene/Geometry.swift:60-65 | the result never exceeds the (floored) maximum; with a consistent envelope it reaches the minimum and is the input, the minimum or the maximum |
| Geometry.ClampedWithinEnvelope | Sources/SwiftCursesKit/Scene/Geometry.swift:60-65 | with 0 <= min <= max clamping lands inside the envelope and leaves a size already inside unchanged |
| Geometry.ClampedIdempotent | Sources/SwiftCursesKit/Scene/Geometry.swift:60-65 | clamping twice equals clamping once, for any envelope |
| Geometry.DefaultConstraintsKeepSize | Sources/SwiftCursesKit/Scene/Geometry.swift:52-58 | the default constraints (0, 0, Int.max, Int.max) leave every representable size unchanged |
| RenderBuffers.Written | Sources/SwiftCursesKit/Scene/RenderBuffer.swift:22-27 | one write appends nothing exactly when the width is not positive or the text is empty, and otherwise the one command carrying its arguments |
| RenderBuffers.RenderBuffer.constructor | Sources/SwiftCursesKit/Scene/RenderBuffer.swift:18-20 | a new buffer holds no commands |
| RenderBuffers.RenderBuffer.Write | Sources/SwiftCursesKit/Scene/RenderBuffer.swift:22-27 | the new command list is the old one followed by what `Written` appends; earlier commands are kept as a prefix |
| SceneNodes.MakePadding | Sources/SwiftCursesKit/Scene/SceneNode.swift:41-46 | each side of the padding is the argument floored at zero |
| SceneNodes.Inset | Sources/SwiftCursesKit/Scene/SceneNode.swift:50-55 | the inset size never grows, gives back at least the padding, and subtracts the padding exactly when the size can hold it |
| SceneNodes.InsetZeroIsIdentity | Sources/SwiftCursesKit/Scene/SceneNode.swift:48-55 | the zero padding leaves every size unchanged |
| SceneNodes.ClampUnit | Sources/SwiftCursesKit/Scene/SceneNode.swift:76 | a fraction in [0, 1] is kept; below 0 becomes 0 and above 1 becomes 1 |
| SceneNodes.MakeSplitConfiguration | Sources/SwiftCursesKit/Scene/SceneNode.swift:74-77 | a split configuration keeps its orientation and holds the clamped fraction |
| SceneNodes.MakeNode | Sources/SwiftCursesKit/Scene/SceneNode.swift:16-20 | a node built from a kind alone has no children and zero padding |
| SceneBuilder.FlattenAppend | Sources/SwiftCursesKit/Scene/SceneBuilder.swift:58-60 | flattening two lists of parts is flattening each and concatenating |
| SceneBuilder.FlattenLength | Sources/SwiftCursesKit/Scene/SceneBuilder.swift:74-76 | the flattened list is as long as the parts together |
| SceneBuilder.BuildBlock | Sources/SwiftCursesKit/Scene/SceneBuilder.swift:58-60 | no components build nothing; otherwise the block of all but the last followed by the last component's nodes |
| SceneBuilder.BuildBlockSplits | Sources/SwiftCursesKit/Scene/SceneBuilder.swift:58-60 | a block over `a + b` builds the block of `a` followed by the block of `b` |
| SceneBuilder.BuildOptional | Sources/SwiftCursesKit/Scene/SceneBuilder.swift:62-64 | an absent component builds no nodes, a present one exactly its nodes |
| SceneBuilder.EitherInBlock | Sources/SwiftCursesKit/Scene/SceneBuilder.swift:66-72 | a branch chosen inside a block contributes exactly its own nodes, at its place between the components before and after it |
| SceneBuilder.BuildArray | Sources/SwiftCursesKit/Scene/SceneBuilder.swift:74-76 | the built list is the one a block over the same collections builds, every collection's nodes in order, and holds as many nodes as they do together |
| SceneBuilder.SingleScene | Sources/SwiftCursesKit/Scene/SceneBuilder.swift:12-16 | a single scene (and a node used as a scene, line 92) makes exactly one node, itself |
| SceneBuilder.WithExtraPadding | Sources/SwiftCursesKit/Scene/SceneBuilder.swift:40-50 | the node keeps its kind and children and each padding side grows by the extra side |
| SceneBuilder.AddPadding | Sources/SwiftCursesKit/Scene/SceneBuilder.swift:31-33 | padding a scene keeps its node count and order and pads each top-level node |
| SceneBuilder.AddUniformPadding | Sources/SwiftCursesKit/Scene/SceneBuilder.swift:35-37 | every top-level node keeps its kind, children and other modifiers, and each of its four padding sides grows by the value floored at zero |
| SceneBuilder.AddPaddingTwice | Sources/SwiftCursesKit/Scene/SceneBuilder.swift:39-51 | padding twice equals padding once by the side-by-side sum |
| SceneBuilder.AddUniformPaddingTwice | Sources/SwiftCursesKit/Scene/SceneBuilder.swift:35-37 | uniform padding by non-negative `a` then `b` equals uniform padding by `a + b` |
| SceneBuilder.AddUniformPaddingNonPositive | Sources/SwiftCursesKit/Scene/SceneBuilder.swift:35-37 | a non-positive uniform padding changes no node |
| BuiltinWidgets.TitleMeasure | Sources/SwiftCursesKit/Scene/BuiltinWidgets.swift:6-9 | a title is one row and at least one cell wide, never wider than the (at least one-cell) maximum, and exactly its text's length when that fits the constraints |
| BuiltinWidgets.TitleCommands | Sources/SwiftCursesKit/Scene/BuiltinWidgets.swift:11-15 | a title draws nothing exactly when the frame is empty or the text is, and otherwise one command at the frame origin holding the text cut to the frame width |
| BuiltinWidgets.RenderTitle | Sources/SwiftCursesKit/Scene/BuiltinWidgets.swift:11-15 | rendering appends exactly the title's commands to the buffer |
| BuiltinWidgets.GaugeMeasure | Sources/SwiftCursesKit/Scene/BuiltinWidgets.swift:22-26 | a gauge reaches the minimum, is max(12, title length) wide and three rows tall when those fit, and stays within a consistent maximum |
| BuiltinWidgets.GaugeBar | Sources/SwiftCursesKit/Scene/BuiltinWidgets.swift:34-40 | the bar row is the inner width plus two brackets long |
| BuiltinWidgets.GaugeBarShape | Sources/SwiftCursesKit/Scene/BuiltinWidgets.swift:34-40 | the bar is bracketed and an inner cell is a hash exactly when it lies within the rounded share of the inner width |
| BuiltinWidgets.GaugeLabel | Sources/SwiftCursesKit/Scene/BuiltinWidgets.swift:46-47 | the rounded percentage lies in [0, 100], and the label ends in a percent sign after at least one character; its digits are stated by GaugeLabelShowsPercentage |
| BuiltinWidgets.GaugeLabelShowsPercentage | Sources/SwiftCursesKit/Scene/BuiltinWidgets.swift:46-47 | everything before the percent sign is decimal digits, and they read back as `Int((progress * 100).rounded())` |
| BuiltinWidgets.RenderGauge | Sources/SwiftCursesKit/Scene/BuiltinWidgets.swift:28-55 | rendering appends exactly the gauge's commands: title row, bar row if a second row exists, label row if a third exists |
| BuiltinWidgets.GaugeCommands | Sources/SwiftCursesKit/Scene/BuiltinWidgets.swift:28-55 | the gauge's title, bar and label rows, as many as the frame has; stated by GaugeRows, GaugeBarFillsRoundedShare and RenderGauge |
| BuiltinWidgets.GaugeRows | Sources/SwiftCursesKit/Scene/BuiltinWidgets.swift:28-55 | an empty frame gets nothing; otherwise one row per frame row up to three (the title row only when the title is non-empty), all inside the frame |
| BuiltinWidgets.GaugeBarFillsRoundedShare | Sources/SwiftCursesKit/Scene/BuiltinWidgets.swift:33-43 | in a frame at least 2x2 the second row shows the whole bar, frame-wide, filled to the rounded share of the clamped value |
| BuiltinWidgets.LogViewMeasure | Sources/SwiftCursesKit/Scene/BuiltinWidgets.swift:62-67 | a log view is max(1, min(maximum visible lines, maximum height)) rows tall, at least one cell wide, within the maximum width and as wide as its longest line when that fits |
| BuiltinWidgets.LogRows | Sources/SwiftCursesKit/Scene/BuiltinWidgets.swift:71-80 | the rows drawn are never more than the lines; what each row shows is stated by `BuiltinWidgets.LogRowsShowLines` and `BuiltinWidgets.LogRowsOfNonEmptyLines` |
| BuiltinWidgets.RenderLogView | Sources/SwiftCursesKit/Scene/BuiltinWidgets.swift:69-81 | rendering appends exactly the log view's commands: the last frame-height lines, one per row |
| BuiltinWidgets.LogViewCommands | Sources/SwiftCursesKit/Scene/BuiltinWidgets.swift:69-81 | the writes of the last frame-height lines; stated by LogViewWithinFrame and RenderLogView |
| BuiltinWidgets.WriteLogRows | Sources/SwiftCursesKit/Scene/BuiltinWidgets.swift:72-80 | the row loop appends exactly `LogRows` of the visible lines |
| BuiltinWidgets.LogRowsExtend | Sources/SwiftCursesKit/Scene/BuiltinWidgets.swift:74-80 | one more line appends exactly the write of that line, cut to the width, on the next row |
| BuiltinWidgets.LogRowsShowLines | Sources/SwiftCursesKit/Scene/BuiltinWidgets.swift:74-80 | every row drawn shows, cut to the width, the line its offset from the first row names |
| BuiltinWidgets.LogRowsIncrease | Sources/SwiftCursesKit/Scene/BuiltinWidgets.swift:74-80 | the rows drawn go strictly downwards |
| BuiltinWidgets.LogRowsOfNonEmptyLines | Sources/SwiftCursesKit/Scene/BuiltinWidgets.swift:74-80 | with a positive width and no empty line, line j is drawn, cut to the width, exactly on row y + j |
| BuiltinWidgets.LogViewWithinFrame | Sources/SwiftCursesKit/Scene/BuiltinWidgets.swift:69-81 | a log view draws only inside its frame |
| BuiltinWidgets.StatusBarMeasure | Sources/SwiftCursesKit/Scene/BuiltinWidgets.swift:87-89 | a status bar is one row tall and takes the whole maximum width (zero if that is negative) |
| BuiltinWidgets.StatusBarText | Sources/SwiftCursesKit/Scene/BuiltinWidgets.swift:93-97 | the status line is the items joined by three blanks, padded with blanks to the width |
| BuiltinWidgets.StatusBarLine | Sources/SwiftCursesKit/Scene/BuiltinWidgets.swift:93 | the items joined by three blanks; stated by StatusBarShowsJoinedItems and StatusBarText |
| BuiltinWidgets.StatusBarCommands | Sources/SwiftCursesKit/Scene/BuiltinWidgets.swift:91-100 | a zero-width frame gets nothing; otherwise one frame-wide command at the frame origin |
| BuiltinWidgets.RenderStatusBar | Sources/SwiftCursesKit/Scene/BuiltinWidgets.swift:91-100 | rendering appends exactly the status bar's commands |
| BuiltinWidgets.StatusBarShowsJoinedItems | Sources/SwiftCursesKit/Scene/BuiltinWidgets.swift:93-99 | the drawn line starts with the joined items and is blank from their end to the frame width |
| BuiltinWidgets.FixedMeasure | Tests/SwiftCursesKitTests/SceneLayoutTests.swift:130-135 | a fixed-size widget lands inside a consistent envelope and keeps its natural size when it fits |
| BuiltinWidgets.FixedCommands | Tests/SwiftCursesKitTests/SceneLayoutTests.swift:137-140 | a fixed-size widget draws nothing exactly when the frame or caption is empty, otherwise its caption once at the frame origin |
| BuiltinWidgets.RenderFixed | Tests/SwiftCursesKitTests/SceneLayoutTests.swift:137-140 | rendering appends exactly the fixed widget's commands |
| BuiltinWidgets.RenderWidget | Sources/SwiftCursesKit/Scene/BuiltinWidgets.swift:11-100 | rendering any widget appends exactly that widget's commands |
| BuiltinWidgets.WidgetMeasure | Sources/SwiftCursesKit/Scene/Widget.swift:24-26 | AnyWidget's measure, dispatched to the wrapped widget's; stated by TitleMeasure, GaugeMeasure, LogViewMeasure, StatusBarMeasure and FixedMeasure |
| BuiltinWidgets.WidgetCommands | Sources/SwiftCursesKit/Scene/Widget.swift:28-30 | AnyWidget's render, dispatched to the wrapped widget's commands; stated by RenderWidget and BuiltinWidgetsStayInFrame |
| BuiltinWidgets.BuiltinWidgetsStayInFrame | Sources/SwiftCursesKit/Scene/BuiltinWidgets.swift:11-100 | title, gauge and log view draw only inside their frame, and so does a status bar in a frame with at least one row |
| BuiltinWidgets.StatusBarDrawsOutsideRowlessFrame | Sources/SwiftCursesKit/Scene/BuiltinWidgets.swift:91-100 | a status bar in a frame with width but no rows still draws, on a row outside the frame |
| BuiltinWidgets.GuardedStatusBarCommands | Sources/SwiftCursesKit/Scene/BuiltinWidgets.swift:91-100 | with the height checked as the other widgets check it, a frame without rows gets no line and any other frame the status bar's line |
| BuiltinWidgets.GuardedStatusBarStaysInFrame | Sources/SwiftCursesKit/Scene/BuiltinWidgets.swift:91-100 | the guarded status bar draws only inside its frame, for every frame |
| LayoutPrimitives.VStack | Sources/SwiftCursesKit/Scene/LayoutPrimitives.swift:7-14 | one unpadded vertical stack node over exactly the content, with the spacing floored at zero |
| LayoutPrimitives.HStack | Sources/SwiftCursesKit/Scene/LayoutPrimitives.swift:21-28 | one unpadded horizontal stack node over exactly the content, with the spacing floored at zero |
| LayoutPrimitives.SplitScene | Sources/SwiftCursesKit/Scene/LayoutPrimitives.swift:36-54 | one split node with the clamped configuration and exactly two group children, the leading content first |
| LayoutPrimitives.WidgetScene | Sources/SwiftCursesKit/Scene/LayoutPrimitives.swift:140-154 | one childless, unpadded node holding the widget |
| LayoutPrimitives.TitleScene | Sources/SwiftCursesKit/Scene/LayoutPrimitives.swift:57-67 | one childless node holding a title widget with the text |
| LayoutPrimitives.GaugeScene | Sources/SwiftCursesKit/Scene/LayoutPrimitives.swift:69-81 | one childless node holding a gauge widget with the title and value |
| LayoutPrimitives.LogViewScene | Sources/SwiftCursesKit/Scene/LayoutPrimitives.swift:83-100 | one childless log view node over the lines, showing at least one line (the maximum floored at 1) |
| LayoutPrimitives.StatusBarScene | Sources/SwiftCursesKit/Scene/LayoutPrimitives.swift:102-120 | one childless node holding a status bar widget with the items |
| LayoutPrimitives.Screen | Sources/SwiftCursesKit/Scene/LayoutPrimitives.swift:123-137 | one unpadded group node over exactly the content |
| SceneLayout.SceneCommandsPrepend | Sources/SwiftCursesKit/Scene/SceneRenderer.swift:8-36 | a scene's draws are its first node's draws followed by the rest's |
| SceneLayout.ChildrenAsScene | Sources/SwiftCursesKit/Scene/SceneRenderer.swift:53-57 | a group lays out its children from `i` on exactly as a scene of those children would |
| SceneLayout.GroupDrawsChildren | Sources/SwiftCursesKit/Scene/LayoutPrimitives.swift:48-49 | an unpadded group draws what a scene of its children draws |
| SceneLayout.SingleNodeScene | Sources/SwiftCursesKit/Scene/SceneBuilder.swift:16 | a one-node scene draws what its node draws |
| SceneLayout.SceneCommands | Sources/SwiftCursesKit/Scene/SceneRenderer.swift:16-19 | the commands of a scene: each top-level node laid out in the root rectangle, in order; stated by SceneCommandsPrepend, SingleNodeScene and LayoutScene |
| LayoutPrimitives.ScreenDrawsItsContent | Sources/SwiftCursesKit/Scene/LayoutPrimitives.swift:123-137 | wrapping content in `Screen` changes nothing drawn |
| LayoutPrimitives.SplitSceneDrawsBothSides | Sources/SwiftCursesKit/Scene/LayoutPrimitives.swift:47-54 | a split scene draws the leading content in the leading part of the rectangle, then the trailing content in the trailing part |
| SpaceDistribution.Share | Sources/SwiftCursesKit/Scene/SceneRenderer.swift:281-290 | a slot's share is never negative and never more than what is free, and the last slot takes everything still free |
| SpaceDistribution.Assign | Sources/SwiftCursesKit/Scene/SceneRenderer.swift:278-294 | the greedy walk gives one share per slot |
| SpaceDistribution.Distribute | Sources/SwiftCursesKit/Scene/SceneRenderer.swift:273-295 | one share per slot, and all shares are zero when no extent is available |
| SpaceDistribution.DistributeSpace | Sources/SwiftCursesKit/Scene/SceneRenderer.swift:273-295 | the distribution loop returns exactly the greedy shares `Distribute` defines |
| SpaceDistribution.AssignUsesAll | Sources/SwiftCursesKit/Scene/SceneRenderer.swift:278-294 | every share lies between zero and the free cells, and the shares add up to exactly the free cells |
| SpaceDistribution.DistributeFillsAvailable | Sources/SwiftCursesKit/Scene/SceneRenderer.swift:273-295 | with room, the shares are non-negative and fill the available extent exactly |
| SpaceDistribution.DistributeNoRoom | Sources/SwiftCursesKit/Scene/SceneRenderer.swift:275-277 | with no room, the shares add up to zero |
| SpaceDistribution.AssignOnePerSlot | Sources/SwiftCursesKit/Scene/SceneRenderer.swift:281-290 | with exactly one free cell per slot, each slot gets one |
| SpaceDistribution.DistributeIgnoresNaturalSizes | Sources/SwiftCursesKit/Scene/SceneRenderer.swift:283-289 | whenever there is a cell per slot, the first slot gets all but one cell per later slot and every later slot gets exactly one, whatever the natural sizes |
| SpaceDistribution.TwoRowsSplitFourOne | Tests/SwiftCursesKitTests/SceneLayoutTests.swift:26-28 | five free rows for two children asking two each are split four and one |
| SpaceDistribution.NaturalShare | Sources/SwiftCursesKit/Scene/SceneRenderer.swift:283-290 | the share without the raise to the minimum is between zero and both the free cells and the slot's natural size |
| SpaceDistribution.NaturalDistribute | Sources/SwiftCursesKit/Scene/SceneRenderer.swift:273-295 | distribute without the raise to the minimum, each slot kept to its natural size; stated by NaturalAssignFits, NaturalAssignKeepsSizes, NaturalSharesOfLayoutTests and NaturalTwoRowStackPlacements |
| SpaceDistribution.NaturalAssignFits | Tests/SwiftCursesKitTests/SceneLayoutTests.swift:37-66 | natural shares never exceed their slots' natural sizes and together never take more than is free |
| SpaceDistribution.NaturalAssignKeepsSizes | Tests/SwiftCursesKitTests/SceneLayoutTests.swift:68-97 | when `q` cells per slot are free and no slot asks for more than `q`, every slot gets exactly its natural size |
| SpaceDistribution.NaturalSharesOfLayoutTests | Tests/SwiftCursesKitTests/SceneLayoutTests.swift:10-97 | the three stacks of the layout tests keep their children's natural sizes: 2 and 2 of 5 rows, 4 and 3 of 19 columns, 2 and 3 of 12 rows |
| SpaceDistribution.EvenSplitCovers | Sources/SwiftCursesKit/Scene/SceneRenderer.swift:284 | when `q` cells per slot are free, the even split is at least `q` |
| SceneMeasure.InsetConstraints | Sources/SwiftCursesKit/Scene/SceneRenderer.swift:191-197 | the inset constraints are non-negative, never above the floored maximum, and with zero padding are the constraints floored at zero |
| SceneMeasure.WidestOf | Sources/SwiftCursesKit/Scene/SceneRenderer.swift:202-209 | the group width is at least every child's and equal to one of them (0 with no children) |
| SceneMeasure.TallestOf | Sources/SwiftCursesKit/Scene/SceneRenderer.swift:202-209 | the group height is at least every child's and equal to one of them (0 with no children) |
| SceneMeasure.TotalWidth | Sources/SwiftCursesKit/Scene/SceneRenderer.swift:225-235 | the summed width is at least every child's width |
| SceneMeasure.TotalHeight | Sources/SwiftCursesKit/Scene/SceneRenderer.swift:213-223 | the summed height is at least every child's height |
| SceneMeasure.SpacingIsProduct | Sources/SwiftCursesKit/Scene/SceneRenderer.swift:81 | one gap after each child but the last is `gap * max(0, count - 1)` |
| SceneMeasure.ChildSizes | Sources/SwiftCursesKit/Scene/SceneRenderer.swift:204-205 | one measured size per child considered |
| SceneMeasure.ChildSizesAt | Sources/SwiftCursesKit/Scene/SceneRenderer.swift:204-205 | the i-th size is the i-th child measured within the inset constraints |
| SceneMeasure.ChildSizesExtend | Sources/SwiftCursesKit/Scene/SceneRenderer.swift:215-216 | one more child appends exactly its measured size |
| SceneMeasure.Padded | Sources/SwiftCursesKit/Scene/SceneRenderer.swift:263-264 | adding the padding back is undone by insetting by it |
| SceneMeasure.MeasureWithinConstraints | Sources/SwiftCursesKit/Scene/SceneRenderer.swift:265-270 | a measured size never exceeds the floored maximum, reaches a consistent minimum, and equals the natural size when that fits |
| SceneMeasure.StackHoldsEachChild | Sources/SwiftCursesKit/Scene/SceneRenderer.swift:210-236 | a stack's natural size holds every child's measured size plus the padding, on both axes |
| SceneMeasure.MeasureNode | Sources/SwiftCursesKit/Scene/SceneRenderer.swift:190-271 | the recursive measure pass returns exactly `Measure`: the content within the inset constraints, padded, then clamped |
| SceneMeasure.Measure | Sources/SwiftCursesKit/Scene/SceneRenderer.swift:190-271 | a node's measured size, its natural size clamped; stated by MeasureWithinConstraints, StackHoldsEachChild and MeasureNode |
| SceneMeasure.NaturalSize | Sources/SwiftCursesKit/Scene/SceneRenderer.swift:191-264 | the content measured within the inset constraints with the padding added back; stated by MeasureWithinConstraints and StackHoldsEachChild |
| SceneMeasure.ContentSize | Sources/SwiftCursesKit/Scene/SceneRenderer.swift:199-261 | the content size by kind from the children's sizes; stated by MeasureGroup, MeasureVerticalStack, MeasureHorizontalStack, MeasureSplit and MeasureContent |
| SceneMeasure.MeasureContent | Sources/SwiftCursesKit/Scene/SceneRenderer.swift:199-261 | the content size of any node kind is exactly `ContentSize` of its children's measured sizes |
| SceneMeasure.MeasureGroup | Sources/SwiftCursesKit/Scene/SceneRenderer.swift:201-209 | the group loop yields the widest and tallest child |
| SceneMeasure.SpacingAfterStep | Sources/SwiftCursesKit/Scene/SceneRenderer.swift:219-221 | a child adds one gap after it exactly when it is not the last |
| SceneMeasure.FoldsStep | Sources/SwiftCursesKit/Scene/SceneRenderer.swift:204-233 | one more child updates the running maxima and sums by its own size |
| SceneMeasure.MeasureVerticalStack | Sources/SwiftCursesKit/Scene/SceneRenderer.swift:212-223 | the vertical stack loop yields the widest child and the heights summed with the gaps |
| SceneMeasure.MeasureHorizontalStack | Sources/SwiftCursesKit/Scene/SceneRenderer.swift:224-235 | the horizontal stack loop yields the widths summed with the gaps and the tallest child |
| SceneMeasure.MeasureSplit | Sources/SwiftCursesKit/Scene/SceneRenderer.swift:237-258 | a split measures its first child alone (zero with none), otherwise its first two side by side or stacked by orientation |
| SceneLayout.ClampSize | Sources/SwiftCursesKit/Scene/SceneRenderer.swift:297-303 | the clamped size never exceeds the bounds, reaches a minimum the bounds allow, and keeps a size already between minimum and bounds |
| SceneLayout.WidgetFrameInsidePadding | Sources/SwiftCursesKit/Scene/SceneRenderer.swift:41-66 | a widget's frame starts at the origin moved by the leading and top padding and stays inside the padded content area |
| SceneLayout.SplitPartitionsRect | Sources/SwiftCursesKit/Scene/SceneRenderer.swift:159-187 | the leading part gets the rounded fraction of the extent along the cut, the trailing part the rest starting where the leading ends, and both span the whole rectangle across the cut |
| SceneLayout.QuarterSplitOfTwentyColumns | Tests/SwiftCursesKitTests/SceneLayoutTests.swift:116-118 | a vertical split at 0.25 of twenty columns puts the trailing part at column 5, five and fifteen wide |
| SceneLayout.MainExtents | Sources/SwiftCursesKit/Scene/SceneRenderer.swift:93-96 | one main-axis extent per measured size, that size's height (vertical) or width (horizontal) |
| SceneLayout.StackShares | Sources/SwiftCursesKit/Scene/SceneRenderer.swift:78-96 | one share per child |
| SceneLayout.Placements | Sources/SwiftCursesKit/Scene/SceneRenderer.swift:97-111 | the cursor walk yields one placement per remaining child |
| SceneLayout.StackPlacements | Sources/SwiftCursesKit/Scene/SceneRenderer.swift:77-145 | one placement per child of the stack |
| SceneLayout.PlacementsUnfold | Sources/SwiftCursesKit/Scene/SceneRenderer.swift:98-110 | a child without a share is skipped and the cursor moves one gap; otherwise it is placed at the cursor, cut to what is left, and the cursor moves past it and one gap |
| SceneLayout.PlacementAt | Sources/SwiftCursesKit/Scene/SceneRenderer.swift:97-111 | with non-negative shares that end within the stack, child j is skipped exactly when its share is zero, and otherwise placed uncut at the cursor plus the shares and gaps before it |
| SceneLayout.PlacementFits | Sources/SwiftCursesKit/Scene/SceneRenderer.swift:98-110 | a share that fits in what is left is placed uncut, and the walk goes on past it and one gap |
| SceneLayout.AdvanceBound | Sources/SwiftCursesKit/Scene/SceneRenderer.swift:97-111 | with non-negative shares the advance to a later child is non-negative and covers every earlier share |
| SceneLayout.AdvanceToLast | Sources/SwiftCursesKit/Scene/SceneRenderer.swift:81-110 | the advance to the last child plus its share is the sum of the shares plus one gap between neighbours |
| SceneLayout.StackTiles | Sources/SwiftCursesKit/Scene/SceneRenderer.swift:77-145 | when the stack is at least as long as its spacing, the children tile it: each exactly its share long, one gap apart, the last ending where the stack ends, zero shares skipped |
| SceneLayout.StackWithoutRoom | Sources/SwiftCursesKit/Scene/SceneRenderer.swift:81-103 | a stack no longer than its spacing skips every child |
| SceneLayout.SkippedAll | Sources/SwiftCursesKit/Scene/SceneRenderer.swift:100-103 | children without a share are all skipped, whatever the cursor |
| SceneLayout.TwoRowStackPlacements | Tests/SwiftCursesKitTests/SceneLayoutTests.swift:10-28 | a six-row vertical stack of two children with spacing 1 places them four rows at row 0 and one row at row 5 |
| SceneLayout.NaturalTwoRowStackPlacements | Tests/SwiftCursesKitTests/SceneLayoutTests.swift:10-28 | with natural shares the six-row stack places its children two rows each, at row 0 and at row 3, as the test expects |
| SceneLayout.WalkIsPlaced | Sources/SwiftCursesKit/Scene/SceneRenderer.swift:97-111 | the cursor walk draws exactly what laying out each child in its placement draws, in order |
| SceneLayout.StackDrawsPlacedChildren | Sources/SwiftCursesKit/Scene/SceneRenderer.swift:56-57 | a stack node draws its children in order, each in its placement within the padded rectangle |
| SceneLayout.SplitIgnoresExtraChildren | Sources/SwiftCursesKit/Scene/SceneRenderer.swift:153-187 | a split with two or more children draws only its first two, in the leading and trailing parts |
| SceneLayout.Layout | Sources/SwiftCursesKit/Scene/SceneRenderer.swift:40-68 | laying out a node appends exactly `LayoutCommands` of it to the buffer |
| SceneLayout.LayoutChildren | Sources/SwiftCursesKit/Scene/SceneRenderer.swift:52-55 | a group's loop appends each child's commands in order, all in the same rectangle |
| SceneLayout.LayoutSplit | Sources/SwiftCursesKit/Scene/SceneRenderer.swift:147-188 | the split appends exactly `SplitCommands`: every child in the whole rectangle when fewer than two, else the first two in their parts |
| SceneLayout.LayoutStack | Sources/SwiftCursesKit/Scene/SceneRenderer.swift:70-145 | the stack appends nothing without children, else exactly the cursor walk over the distributed shares |
| SceneLayout.MeasureChildren | Sources/SwiftCursesKit/Scene/SceneRenderer.swift:83-92 | the measuring loop returns each child's measured size, in order |
| SceneLayout.PlaceChildren | Sources/SwiftCursesKit/Scene/SceneRenderer.swift:97-111 | the placing loop appends exactly what the cursor walk defines |
| SceneLayout.PlacementsStep | Sources/SwiftCursesKit/Scene/SceneRenderer.swift:98-110 | one step of the walk read off a suffix of the placements |
| SceneLayout.LayoutScene | Sources/SwiftCursesKit/Scene/SceneRenderer.swift:16-19 | a fresh buffer ends holding exactly the scene's commands, each top-level node laid out in the root rectangle |
| SceneLayout.LayoutCommands | Sources/SwiftCursesKit/Scene/SceneRenderer.swift:40-68 | the commands one node's layout appends, by kind; stated by Layout, GroupDrawsChildren, StackDrawsPlacedChildren, SplitIgnoresExtraChildren and WidgetFrameInsidePadding |
| SceneLayout.WalkCommands | Sources/SwiftCursesKit/Scene/SceneRenderer.swift:97-111 | the stack's cursor walk from a given child on; stated by WalkIsPlaced, PlaceChildren and LayoutStack |
| SceneLayout.SplitCommands | Sources/SwiftCursesKit/Scene/SceneRenderer.swift:147-188 | a split's commands: every child in the whole rectangle with fewer than two, otherwise the first two in their parts; stated by LayoutSplit and SplitIgnoresExtraChildren |
| SceneLayout.SplitRects | Sources/SwiftCursesKit/Scene/SceneRenderer.swift:159-187 | the leading and trailing rectangles of a split; stated by SplitPartitionsRect and QuarterSplitOfTwentyColumns |
| SceneRendering.RootRect | Sources/SwiftCursesKit/Scene/SceneRenderer.swift:12-14 | the root rectangle sits at the origin and spans the window's columns and rows floored at zero |
| SceneRendering.DrawFor | Sources/SwiftCursesKit/Scene/SceneRenderer.swift:22-32 | a command yields a draw call exactly when its origin lies on screen, and then at that row and column |
| SceneRendering.DrawnText | Sources/SwiftCursesKit/Scene/SceneRenderer.swift:27-30 | a visible command draws exactly min(its width, rest of the row) cells, at least one, ending within the row: as much of its text as fits, then blanks |
| SceneRendering.DrawsAppend | Sources/SwiftCursesKit/Scene/SceneRenderer.swift:22-33 | the draws of two command lists are the draws of each, concatenated |
| SceneRendering.DrawsStayOnScreen | Sources/SwiftCursesKit/Scene/SceneRenderer.swift:22-33 | at most one draw per command, and every draw lies on screen with non-empty text that stops at the right edge |
| SceneRendering.OffScreenDrawsNothing | Sources/SwiftCursesKit/Scene/SceneRenderer.swift:23-26 | commands that all start off screen draw nothing |
| SceneRendering.FlushCalls | Sources/SwiftCursesKit/Scene/SceneRenderer.swift:21-35 | a flush makes three calls besides the draws |
| SceneRendering.FlushFrame | Sources/SwiftCursesKit/Scene/SceneRenderer.swift:21-35 | a flush clears first, stages and commits last, and only draws in between |
| SceneRendering.TracedFailure | Sources/SwiftCursesKit/Scene/SceneRenderer.swift:21-35 | a call that throws ends the pass after exactly the calls made up to and including it |
| SceneRendering.Flush | Sources/SwiftCursesKit/Scene/SceneRenderer.swift:21-35 | the flush makes the planned calls in order, stopping at and reporting the one that throws |
| SceneRendering.DrawsStep | Sources/SwiftCursesKit/Scene/SceneRenderer.swift:22-33 | one more command adds its draw, if any, at the end |
| SceneRendering.PlanStartsWithDraws | Sources/SwiftCursesKit/Scene/SceneRenderer.swift:21-35 | the flush is the clear, the draws of the first i commands, the draws of the rest, stage and commit |
| SceneRendering.OpeningIsPrefix | Sources/SwiftCursesKit/Scene/SceneRenderer.swift:21-33 | the calls made for the first i commands are a prefix of the flush |
| SceneRendering.DrawFailureTraced | Sources/SwiftCursesKit/Scene/SceneRenderer.swift:31-32 | a draw that throws ends the flush after the calls made so far |
| SceneRendering.Render | Sources/SwiftCursesKit/Scene/SceneRenderer.swift:8-36 | without a root descriptor nothing is called; otherwise the scene is laid out in the root rectangle and flushed, stopping at the first call that throws |
| EventStream.DecodeCharacter | Sources/SwiftCursesKit/Runtime/EventStream.swift:222-238 | a value gives no key event exactly when it is not a Unicode scalar, and a decoded character carries no modifiers |
| EventStream.IsScalar | Sources/SwiftCursesKit/Runtime/EventStream.swift:223 | whether UnicodeScalar(_:) accepts the value; stated by DecodeCharacter and DecodeCharacterCases |
| EventStream.DecodeCharacterCases | Sources/SwiftCursesKit/Runtime/EventStream.swift:224-237 | tab, enter (LF or CR), escape and delete each decode from exactly their codes; the other C0 codes become `control` with their value; every other scalar from 0x20 up is that very character |
| EventStream.DecodeKeyCode | Sources/SwiftCursesKit/Runtime/EventStream.swift:240-278 | a code in the F1 to F64 range is that function key, and only back-tab carries a modifier (shift) |
| EventStream.NamedKeysDecode | Sources/SwiftCursesKit/Runtime/EventStream.swift:248-274 | each named curses code decodes to its own key: none falls in the function-key range checked first |
| EventStream.FunctionKeysRoundTrip | Sources/SwiftCursesKit/Runtime/EventStream.swift:241-245 | the code of function key n, for 1 <= n <= 64, decodes back to function key n |
| EventStream.UnmappedCodesAreUnknown | Sources/SwiftCursesKit/Runtime/EventStream.swift:275-276 | any other code decodes to an unknown key carrying the code |
| EventStream.FlagsOf | Sources/SwiftCursesKit/Runtime/EventStream.swift:309-359 | each flag is its mask's bit in the state; buttons six and seven count only when their mask is non-zero |
| EventStream.ButtonAction | Sources/SwiftCursesKit/Runtime/EventStream.swift:364-389 | a button yields an action exactly when one of its five bits is set, always for that button, with a click count from 1 to 3 |
| EventStream.MouseActionPriority | Sources/SwiftCursesKit/Runtime/EventStream.swift:309-346 | the first button with a bit set decides the action, then the wheel in order up, down, right, left; the action is a scroll exactly when no button bit and some wheel bit is set |
| EventStream.ButtonActionPriority | Sources/SwiftCursesKit/Runtime/EventStream.swift:373-387 | within a button a press wins over a release, a release over a click, and more clicks over fewer |
| EventStream.NeverDragged | Sources/SwiftCursesKit/Runtime/EventStream.swift:348-357 | no state decodes as a drag |
| EventStream.DragFirstAction | Sources/SwiftCursesKit/Runtime/EventStream.swift:309-361 | with the drag check moved before the buttons, every state without a position report decodes as before |
| EventStream.DragFirstDecodesDrags | Sources/SwiftCursesKit/Runtime/EventStream.swift:348-357 | the reordered decoder reports a drag exactly for a position report with a button held, and differs from the decoder only there |
| EventStream.UnknownIffNoActionBits | Sources/SwiftCursesKit/Runtime/EventStream.swift:361 | the state comes back as unknown, carrying the raw state, exactly when no button, wheel or position bit is set |
| EventStream.ReportAloneIsMove | Sources/SwiftCursesKit/Runtime/EventStream.swift:348-358 | with the position bit set, the action is a move exactly when no button or wheel bit is set |
| EventStream.LeftPressWithMotionIsPress | Sources/SwiftCursesKit/Runtime/EventStream.swift:310-350 | with the curses masks, a left press reported with motion decodes as a press, not a drag |
| EventStream.DecodeMouseModifiers | Sources/SwiftCursesKit/Runtime/EventStream.swift:295-307 | shift, control and alt are each present exactly when their bit is set |
| EventStream.DecodeMouse | Sources/SwiftCursesKit/Runtime/EventStream.swift:288-293 | the row is the report's y, the column its x, and the action, modifiers and raw state come from its state |
| EventStream.DecodeMouseAction | Sources/SwiftCursesKit/Runtime/EventStream.swift:309-361 | MouseEvent.action(for:), the flags read from the state and decided; stated by LeftPressWithMotionIsPress and DecodeMouse |
| EventStream.ActionFromFlags | Sources/SwiftCursesKit/Runtime/EventStream.swift:309-361 | the decision on the flags, buttons then wheel then position report; stated by MouseActionPriority, NeverDragged, UnknownIffNoActionBits, ReportAloneIsMove and DragFirstAction |
| EventStream.KeyCodeEvent | Sources/SwiftCursesKit/Runtime/EventStream.swift:208-218 | the mouse code emits the pending report if there is one, the resize code the window's size, and any other code its key |
| EventStream.TurnEvent | Sources/SwiftCursesKit/Runtime/EventStream.swift:173-195 | a turn without a descriptor or without input emits nothing |
| EventStream.PollEvents | Sources/SwiftCursesKit/Runtime/EventStream.swift:170-197 | the loop emits at most one event per turn |
| EventStream.CharactersEmitOnlyKeys | Sources/SwiftCursesKit/Runtime/EventStream.swift:182-192 | turns that read only characters (or nothing) emit only key events |
| EventStream.TerminalEventSource.constructor | Sources/SwiftCursesKit/Runtime/EventStream.swift:45-57 | a new source is running, has no tasks, a zero tick counter, an open stream and no events |
| EventStream.TerminalEventSource.Start | Sources/SwiftCursesKit/Runtime/EventStream.swift:63-83 | the poll task runs afterwards exactly when it ran before or the source is not stopped; nothing else changes |
| EventStream.TerminalEventSource.Stop | Sources/SwiftCursesKit/Runtime/EventStream.swift:85-108 | the first stop cancels every auxiliary task and the poll task and finishes the stream; a later stop changes nothing |
| EventStream.HeldTasks | Sources/SwiftCursesKit/Runtime/EventStream.swift:92-101 | the tasks a stop cancels: the poll task exactly while it runs, and every auxiliary task |
| EventStream.TerminalEventSource.RegisterAuxiliaryTask | Sources/SwiftCursesKit/Runtime/EventStream.swift:136-144 | a task registered before the stop is kept; one registered after is cancelled at once |
| EventStream.TerminalEventSource.UnregisterAuxiliaryTask | Sources/SwiftCursesKit/Runtime/EventStream.swift:146-150 | the token's task is removed and nothing else changes |
| EventStream.TerminalEventSource.NextTickSequence | Sources/SwiftCursesKit/Runtime/EventStream.swift:152-157 | the counter moves on by one, wrapping at 2^64, and the new value is returned |
| EventStream.TerminalEventSource.Emit | Sources/SwiftCursesKit/Runtime/EventStream.swift:164-168 | the event is appended exactly while the stream is open |
| EventStream.TerminalEventSource.EmitTick | Sources/SwiftCursesKit/Runtime/EventStream.swift:159-162 | a tick carrying the next sequence number is appended while the stream is open |
| EventStream.TerminalEventSource.FinishStreamIfNeeded | Sources/SwiftCursesKit/Runtime/EventStream.swift:199-206 | finishing an open stream runs its termination handler `stop()` (lines 53-56), so the source ends stopped, holding no task, with every task it held cancelled; a finished stream changes nothing |
| EventStream.TerminalEventSource.PollLoop | Sources/SwiftCursesKit/Runtime/EventStream.swift:170-197 | while the stream is open the loop appends exactly `PollEvents` of the turns; its deferred finish then leaves the source stopped with the tasks it held cancelled |
| EventStream.PollEndStopsSource | Sources/SwiftCursesKit/Runtime/EventStream.swift:170-206 | when the poll loop of a started source with one tick task ends, the stream carried every turn's event, the source is stopped, and both the poll task and the tick task are cancelled |
| EventStream.StoppedSourceIsInert | Sources/SwiftCursesKit/Runtime/EventStream.swift:85-168 | after a stop, emitting, ticking and starting again add no event and start no poll task |
| EventStream.TicksStartAtOne | Sources/SwiftCursesKit/Runtime/EventStream.swift:152-157 | a new source numbers its first two ticks 1 and 2 |
| CNCursesRuntime.SameErrorIsEquality | Sources/CNCursesSupport/Swift/Runtime.swift:17-29 | the hand-written `==` holds exactly when the two errors are the same case with the same name and code |
| CNCursesRuntime.Check | Sources/CNCursesSupport/Swift/Runtime.swift:153-158 | a call passes exactly when it returns `OK`, and otherwise fails with its name and result code |
| CNCursesRuntime.FirstFailure | Sources/CNCursesSupport/Swift/Runtime.swift:127-134 | there is no failing call exactly when every result is `OK`; otherwise the index found fails and every earlier call succeeded |
| CNCursesRuntime.Prepare | Sources/CNCursesSupport/Swift/Runtime.swift:127-134 | prepareForInteractiveUse's checked calls, stopping at the first failure; stated by PrepareReportsFirstFailure and BootstrapOutcome |
| CNCursesRuntime.PreparationCallsMade | Sources/CNCursesSupport/Swift/Runtime.swift:127-134 | all six calls are made when none fails, otherwise the calls up to and including the first failure |
| CNCursesRuntime.PrepareReportsFirstFailure | Sources/CNCursesSupport/Swift/Runtime.swift:127-134 | when call i is the first to fail, preparation fails with that call's name and code and makes exactly the calls up to it |
| CNCursesRuntime.RuntimeState.constructor | Sources/CNCursesSupport/Swift/Runtime.swift:53-57 | a new state has no screen, is not headless and has registered no exit hook |
| CNCursesRuntime.RuntimeState.Bootstrap | Sources/CNCursesSupport/Swift/Runtime.swift:59-83 | an existing screen or headless state is left alone; a non-interactive terminal turns headless; otherwise the outcome is `BootstrapOutcome`, a screen is held exactly on success, `endwin` is called once exactly when preparation fails, and success registers the hook |
| CNCursesRuntime.RuntimeState.RegisterExitHookIfNeeded | Sources/CNCursesSupport/Swift/Runtime.swift:100-110 | afterwards the hook is registered, and it is registered at most once over the state's life |
| CNCursesRuntime.RuntimeState.Shutdown | Sources/CNCursesSupport/Swift/Runtime.swift:85-98 | a headless runtime only clears its flag; with no screen nothing happens; otherwise `endwin` is called once, its result is checked, and the screen is kept exactly when it fails |
| CNCursesRuntime.BootstrapOutcome | Sources/CNCursesSupport/Swift/Runtime.swift:70-78 | an interactive bootstrap passes exactly when the locale, `initscr` and all six preparation calls succeed; a missing locale and a failed `initscr` give their own errors |
| CNCursesRuntime.BootstrapIsIdempotent | Sources/CNCursesSupport/Swift/Runtime.swift:59-63 | bootstrapping twice registers the exit hook at most once, and a second bootstrap with a screen passes |
| RuntimeErrors.Translate | Sources/SwiftCursesKit/Runtime/Internal/WindowHandle.swift:26-34 | a failed native call keeps its name and code; every other error becomes a bootstrap failure |
| WindowHandles.WindowHandle.constructor | Sources/SwiftCursesKit/Runtime/Internal/WindowHandle.swift:11-14 | a new handle is open, has destroyed nothing and keeps its descriptor and ownership |
| WindowHandles.WindowHandle.Close | Sources/SwiftCursesKit/Runtime/Internal/WindowHandle.swift:20-38 | a closed handle does nothing; an unowned or descriptor-less one just closes; an owned one destroys its descriptor once and closes only when that succeeds, reporting the translated error otherwise |
| WindowHandles.WindowHandle.CloseSilently | Sources/SwiftCursesKit/Runtime/Internal/WindowHandle.swift:40-46 | a closed handle, or one with nothing to destroy, ends closed with no destroy call; an owned handle with a descriptor is destroyed once and ends closed exactly when the destroy passes; nothing is reported |
| WindowHandles.WindowHandle.MarkClosed | Sources/SwiftCursesKit/Runtime/Internal/WindowHandle.swift:48-50 | the handle is closed without destroying anything |
| WindowHandles.WindowHandle.WithDescriptor | Sources/SwiftCursesKit/Runtime/Internal/WindowHandle.swift:52-58 | the body's result when there is a descriptor, nil exactly when there is none, open or closed |
| WindowHandles.CloseDestroysOnce | Sources/SwiftCursesKit/Runtime/Internal/WindowHandle.swift:20-38 | closing an owned window twice destroys it exactly once |
| WindowHandles.ClosedStaysClosed | Sources/SwiftCursesKit/Runtime/Internal/WindowHandle.swift:16-50 | a handle marked closed reports itself closed from then on, and closing it again, loudly or silently, passes without destroying anything |
| RuntimeCoordination.LastFrame | Sources/SwiftCursesKit/Runtime/Internal/TerminalRuntimeCoordinator.swift:22-28 | the loop ends after the first frame that requests a shutdown, returns false or throws, and no earlier frame does |
| RuntimeCoordination.LoopError | Sources/SwiftCursesKit/Runtime/Internal/TerminalRuntimeCoordinator.swift:20-28 | the loop captures an error exactly when its last frame threw |
| RuntimeCoordination.FirstErrorWins | Sources/SwiftCursesKit/Runtime/Internal/TerminalRuntimeCoordinator.swift:30-40 | the loop's error wins; otherwise `run` fails exactly when `stop` does, with the stop's error |
| RuntimeCoordination.ShutdownRequestEndsLoop | Sources/SwiftCursesKit/Runtime/Internal/TerminalRuntimeCoordinator.swift:22-49 | a shutdown requested during frame k ends the loop after that frame, with an error exactly when that frame threw |
| RuntimeCoordination.Coordinator.constructor | Sources/SwiftCursesKit/Runtime/Internal/TerminalRuntimeCoordinator.swift:8-13 | a new coordinator is not running, has no stop request and holds no handle |
| RuntimeCoordination.Coordinator.RequestShutdown | Sources/SwiftCursesKit/Runtime/Internal/TerminalRuntimeCoordinator.swift:43-45 | a stop is requested and nothing else changes |
| RuntimeCoordination.ShutdownRequestIsSticky | Sources/SwiftCursesKit/Runtime/Internal/TerminalRuntimeCoordinator.swift:43-49 | a new coordinator keeps running until a shutdown is requested, and then asks the loop to stop, however often it is requested |
| RuntimeCoordination.Coordinator.Start | Sources/SwiftCursesKit/Runtime/Internal/TerminalRuntimeCoordinator.swift:51-87 | a running coordinator refuses with `alreadyRunning` and leaves the runtime alone; otherwise it fails exactly when `StartError` names an error, with that error: the translated bootstrap error, or `bootstrapFailed` after calling `endwin` once when an interactive runtime has no standard screen; success returns a fresh, open, unowned handle that it holds, clears the stop request, leaves the runtime headless exactly when the bootstrap made it so and with a screen otherwise, and carries the standard screen as descriptor unless headless |
| RuntimeCoordination.Coordinator.Stop | Sources/SwiftCursesKit/Runtime/Internal/TerminalRuntimeCoordinator.swift:89-109 | the coordinator is reset and its handle marked closed without destroying it, even when the shutdown fails; it fails exactly when `endwin` fails on a held screen, with that call's error |
| RuntimeCoordination.Coordinator.Run | Sources/SwiftCursesKit/Runtime/Internal/TerminalRuntimeCoordinator.swift:15-41 | frames run exactly when the start succeeds; a failed start reports its error as a runtime error and stops nothing; otherwise the frames run up to the one that ends the loop, the coordinator always stops, the stop fails exactly when the runtime has a screen and `endwin` fails, with `endwin`'s error, and the loop's error wins over the stop's |
| RuntimeCoordination.StartError | Sources/SwiftCursesKit/Runtime/Internal/TerminalRuntimeCoordinator.swift:51-87 | a runtime that is or becomes headless never fails to start; one that passes the bootstrap and is not headless starts exactly when it has a standard screen |
| RuntimeCoordination.BootResult | Sources/CNCursesSupport/Swift/Runtime.swift:59-83 | the bootstrap fails only for an interactive terminal with no screen and not headless, with the interactive bootstrap's outcome |
| Capabilities.Inspect | Sources/SwiftCursesKit/Runtime/TerminalCapabilities.swift:48-103 | a headless runtime yields `headless`; otherwise colour support holds exactly when colour is supported and starting it succeeds, any colour failure zeroes every colour field, counts are never negative, and mouse support is the probed one |
| Capabilities.InspectWithColor | Sources/SwiftCursesKit/Runtime/TerminalCapabilities.swift:75-82 | once colour has started the counts are the probed ones clamped at zero and both flags are the probed ones |
| Colors.ColorFromIndex | Sources/SwiftCursesKit/Runtime/Color/TerminalColor.swift:15-19 | an index that fits in Int16 becomes that colour's raw value; one that does not traps |
| Colors.ColorSupport | Sources/SwiftCursesKit/Runtime/Color/TerminalColor.swift:61-67 | a colour is never supported with a negative index, on a terminal reporting no colours, or headless |
| Colors.ColorPairConfiguration.ResolvedComponents | Sources/SwiftCursesKit/Runtime/Color/ColorPairConfiguration.swift:42-47 | each side resolves to its colour's index, or to the ncurses default sentinel -1 when nil |
| Colors.ConfigurationPredicates | Sources/SwiftCursesKit/Runtime/Color/ColorPairConfiguration.swift:19-40 | default exactly when both sides are nil, needing default colours when either is, supported exactly when colour is on, default colours are present if needed and every given colour lies within the colour count; never supported headless |
| Colors.MakeEntry | Sources/SwiftCursesKit/Runtime/Color/TerminalTheme.swift:12-22 | an entry keeps its configuration and falls back to monochrome by default |
| Colors.ThemeConfiguration | Sources/SwiftCursesKit/Runtime/Color/TerminalTheme.swift:38-51 | a role without an entry gets monochrome; one with an entry gets its configuration or its fallback; with colour on, anything other than monochrome comes from an entry |
| Colors.ThemeChoosesConfigurationOrFallback | Sources/SwiftCursesKit/Runtime/Color/TerminalTheme.swift:39-50 | for a role with an entry the configuration is chosen exactly when colour is on and the terminal supports it, the fallback otherwise |
| Colors.DefaultFallbackIsMonochrome | Sources/SwiftCursesKit/Runtime/Color/TerminalTheme.swift:16-50 | an entry made with the default fallback resolves to monochrome whenever its configuration is unsupported |
| ColorRegistry.Evaluate | Sources/SwiftCursesKit/Runtime/Internal/ColorPairRegistry.swift:35-54 | the default pair exactly for a default or unsupported configuration or no colour; otherwise the cached pair when there is one; otherwise out of pairs exactly when the counter has reached the pair count, and else an allocation of the counter's value |
| ColorRegistry.AllocationKeepsInvariant | Sources/SwiftCursesKit/Runtime/Internal/ColorPairRegistry.swift:46-53 | an allocated identifier lies in [1, pair count), is held by no cached configuration, and the updated cache and counter keep the registry's invariant (distinct identifiers below the counter, each for a supported non-default configuration) |
| ColorRegistry.InitArguments | Sources/SwiftCursesKit/Runtime/Internal/ColorPairRegistry.swift:62-65 | `init_pair` receives the allocated identifier and the configuration's resolved components |
| ColorRegistry.FailureCode | Sources/SwiftCursesKit/Runtime/Internal/ColorPairRegistry.swift:66-73 | a failed call is reported with its own code, anything else with -1 |
| ColorRegistry.ColorPairRegistry.constructor | Sources/SwiftCursesKit/Runtime/Internal/ColorPairRegistry.swift:13-16 | a new registry is headless, with an empty cache and the counter at 1 |
| ColorRegistry.ColorPairRegistry.UpdateCapabilities | Sources/SwiftCursesKit/Runtime/Internal/ColorPairRegistry.swift:18-24 | the new capabilities are stored, the cache emptied and the counter set back to 1 |
| ColorRegistry.ColorPairRegistry.Reset | Sources/SwiftCursesKit/Runtime/Internal/ColorPairRegistry.swift:26-32 | the capabilities become headless, the cache is emptied and the counter set back to 1 |
| ColorRegistry.ColorPairRegistry.Pair | Sources/SwiftCursesKit/Runtime/Internal/ColorPairRegistry.swift:34-78 | keeps the invariant; the default, cached and out-of-pairs cases change nothing and call nothing; an allocation caches the identifier, advances the counter, calls `init_pair` once with the resolved components and returns the identifier or the call's failure code |
| ColorRegistry.ColorPairRegistry.PairWithRollback | Sources/SwiftCursesKit/Runtime/Internal/ColorPairRegistry.swift:62-74 | as `pair(for:)`, except that a failed `init_pair` leaves the cache and the counter as they were before the request |
| ColorRegistry.PairCapacity | Sources/SwiftCursesKit/Runtime/Internal/ColorPairRegistry.swift:46 | the pair count as `Int16(clamping:)` converts it: the count itself up to 32767, and 32767 above |
| ColorRegistry.EvaluateClamped | Sources/SwiftCursesKit/Runtime/Internal/ColorPairRegistry.swift:34-53 | the decision of `pair(for:)` with the counter compared against the clamped capacity, for every pair count: default, cached, out of pairs exactly when the counter reaches the capacity, otherwise an allocation of the counter |
| ColorRegistry.EvaluateClampedAgrees | Sources/SwiftCursesKit/Runtime/Internal/ColorPairRegistry.swift:46 | wherever `Int16(capabilities.colorPairCount)` does not trap, the clamped decision is the code's |
| ColorRegistry.ClampedAllocationKeepsInvariant | Sources/SwiftCursesKit/Runtime/Internal/ColorPairRegistry.swift:46-53 | for every pair count, a clamped allocation hands out an unused identifier in [1, count) below 32767 and keeps the registry's invariant |
| ColorRegistry.WidePaletteIsCapped | Sources/SwiftCursesKit/Runtime/Internal/ColorPairRegistry.swift:46 | a 65536-pair palette makes the code's conversion trap, while the clamped registry allocates pair 1 and refuses at 32767 |
| ColorRegistry.ColorPairRegistry.PairClamped | Sources/SwiftCursesKit/Runtime/Internal/ColorPairRegistry.swift:34-78 | `pair(for:)` with the clamped capacity and no condition on the pair count: the same cases as `Pair`, with every identifier handed out below 32767 and the invariant kept |
| ColorRegistry.ThemeColorPair | Sources/SwiftCursesKit/Runtime/Color/TerminalTheme.swift:38-51 | the registry resolves the theme's configuration for the role exactly as `pair(for:)` does, case by case: the result, the cache, the counter and the `init_pair` calls; a role without an entry yields the default pair and leaves the cache alone |
| ColorRegistry.FailedAllocationStaysCached | Tests/SwiftCursesKitTests/ColorPairRegistryTests.swift:7-53 | red on blue whose `init_pair` fails reports code -1, and asking again returns the cached identifier 1 with no second `init_pair` call |
| ColorRegistry.FailedAllocationRollsBack | Tests/SwiftCursesKitTests/ColorPairRegistryTests.swift:7-53 | with the rollback, the failed request reports code -1 and leaves nothing behind, the retry initialises and returns pair 1, and a third request returns 1 from the cache without another `init_pair` |
| Text.PaddedTo | Examples/OperationsDemo/OperationsDemoApp.swift:267-272 | exactly the requested number of characters: the text's prefix when it is long enough, otherwise the text followed by blanks |
| Text.DigitsOfDescription | Examples/OperationsDemo/OperationsDemoApp.swift:448 | the decimal digits printed for a natural number read back as that number |
| DemoSupport.Truncated | Examples/OperationsDemo/OperationsDemoApp.swift:426-432 | empty for a non-positive width; otherwise exactly `width` characters, the text's prefix or the text padded with spaces |
| DemoSupport.Centered | Examples/OperationsDemo/OperationsDemoApp.swift:417-424 | a text at least as wide as the width is truncated; otherwise the result has exactly the width |
| DemoSupport.CenteredPlacement | Examples/OperationsDemo/OperationsDemoApp.swift:419-423 | a narrower text lands after ⌊slack/2⌋ spaces and is followed only by spaces |
| DemoSupport.LogCapacity | Examples/OperationsDemo/OperationsDemoApp.swift:190 | the log keeps at least 30 entries and at least three screens of the display limit |
| DemoSupport.TrimToRecent | Examples/OperationsDemo/OperationsDemoApp.swift:189-194 | the log keeps min(count, capacity) entries, and they are its newest ones in order |
| DemoSupport.AppendKeepsNewest | Examples/OperationsDemo/OperationsDemoApp.swift:184-194 | appending then trimming leaves the new lines last, preceded by as many of the newest old lines as fit |
| DemoSupport.Visible | Examples/OperationsDemo/OperationsDemoApp.swift:139-141 | the newest min(limit, count) entries, in order |
| DemoSupport.MakeConfiguration | Examples/OperationsDemo/OperationsDemoApp.swift:9-13 | both counts are clamped to at least 1 and the preview flag is kept |
| DemoSupport.ParseInt | Examples/OperationsDemo/OperationsDemoApp.swift:448 | an accepted number fits in 64 bits, and an empty string is never a number |
| DemoSupport.ParseIntReadsDescription | Examples/OperationsDemo/OperationsDemoApp.swift:448 | `Int(_:)` reads back any printed 64-bit integer, negative ones included |
| DemoSupport.ApplyOptionsKeepsPositive | Examples/OperationsDemo/OperationsDemoApp.swift:445-460 | the options never bring a count below 1 and never clear the preview flag |
| DemoSupport.ApplyOptions | Examples/OperationsDemo/OperationsDemoApp.swift:443-461 | the options loop over the arguments after the program name; stated by ApplyOptionsKeepsPositive, ParseArguments, ParseExample and ForeignFlagIgnored |
| DemoSupport.Parse | Examples/OperationsDemo/OperationsDemoApp.swift:439-442 | help is chosen exactly when `--help` or `-h` appears anywhere, the program name included |
| DemoSupport.ParsedCountsArePositive | Examples/OperationsDemo/OperationsDemoApp.swift:443-461 | a parsed configuration has both counts at least 1 |
| DemoSupport.ParseArguments | Examples/OperationsDemo/OperationsDemoApp.swift:439-462 | the iterator loop over the arguments after the program name computes exactly the recursive definition of parsing |
| DemoSupport.TickMessage | Examples/OperationsDemo/OperationsDemoApp.swift:158 | a tick line is "Tick ", the printed tick, ": " and the message, in that order |
| OperationsDemo.ParseOperationsArguments | Examples/OperationsDemo/OperationsDemoApp.swift:439-462 | help exactly when asked for anywhere; otherwise the options applied to 90 ticks and 8 event lines, both counts at least 1 |
| OperationsDemo.ParseExample | Examples/OperationsDemo/OperationsDemoApp.swift:443-461 | `--ticks 5 --event-lines many --preview` gives 5 ticks, the default 8 lines (the unparsable value is consumed) and a preview |
| OperationsDemo.TickEvents | Examples/OperationsDemo/OperationsDemoApp.swift:154-176 | a tick's lines start with one line per task event, in order; no further line is added exactly when the tick is a multiple of none of 5, 7 and 9 |
| OperationsDemo.TaskEventLines | Examples/OperationsDemo/OperationsDemoApp.swift:155-160 | one tick line per task event, in task order |
| OperationsDemo.MonitoringLine | Examples/OperationsDemo/OperationsDemoApp.swift:162-165 | one focus line exactly on every fifth tick |
| OperationsDemo.AutoscalerLine | Examples/OperationsDemo/OperationsDemoApp.swift:166-172 | one autoscaler line exactly on every seventh tick |
| OperationsDemo.BudgetLine | Examples/OperationsDemo/OperationsDemoApp.swift:173-176 | one error-budget line exactly on every ninth tick |
| OperationsDemo.CollectTaskEvents | Examples/OperationsDemo/OperationsDemoApp.swift:154-160 | the nested loops produce exactly the task events' tick lines, in order |
| OperationsDemo.OperationsDemoState.constructor | Examples/OperationsDemo/OperationsDemoApp.swift:107-122 | the display limit is at least 1; four tasks Release #1 to #4, the focus on the first and the two start-up lines |
| OperationsDemo.ReleaseName | Examples/OperationsDemo/OperationsDemoApp.swift:112 | a task's name, "Release #" and its number; stated by OperationsDemoState.constructor |
| OperationsDemo.OperationsDemoState.VisibleEvents | Examples/OperationsDemo/OperationsDemoApp.swift:139-141 | the newest min(limit, count) log lines |
| OperationsDemo.OperationsDemoState.FocusedTaskName | Examples/OperationsDemo/OperationsDemoApp.swift:135-137 | the focused name is one of the tasks' names |
| OperationsDemo.OperationsDemoState.Log | Examples/OperationsDemo/OperationsDemoApp.swift:184-187 | the message becomes the newest line and the log is trimmed; nothing else changes |
| OperationsDemo.OperationsDemoState.TrimEventLog | Examples/OperationsDemo/OperationsDemoApp.swift:189-194 | the log is cut to its newest entries within capacity |
| OperationsDemo.OperationsDemoState.FocusNextManually | Examples/OperationsDemo/OperationsDemoApp.swift:143-146 | the focus moves to the next task, wrapping around and staying in range, and the pinned task is logged |
| OperationsDemo.OperationsDemoState.AdvanceTick | Examples/OperationsDemo/OperationsDemoApp.swift:148-182 | the tick count grows by one, the focus moves on every fifth tick and stays in range, and the tick's lines, when there are any, are appended and the log trimmed |
| DashboardDemo.ParseDashboardArguments | Examples/DashboardDemo/DashboardDemoApp.swift:209-232 | help exactly when asked for anywhere; otherwise the options applied to 60 ticks and 6 log lines, both counts at least 1 |
| DashboardDemo.ForeignFlagIgnored | Examples/DashboardDemo/DashboardDemoApp.swift:215-230 | an unknown flag and the value after it are both skipped, leaving the defaults |
| DashboardDemo.TickLogMessage | Examples/DashboardDemo/DashboardDemoApp.swift:43-53 | the message branch is chosen by the tick count modulo 4 |
| DashboardDemo.DemoDashboardState.constructor | Examples/DashboardDemo/DashboardDemoApp.swift:25-31 | the display limit is at least 1 and the log holds the two start-up lines |
| DashboardDemo.DemoDashboardState.VisibleLogs | Examples/DashboardDemo/DashboardDemoApp.swift:33-35 | the newest min(limit, count) log entries |
| DashboardDemo.DemoDashboardState.AppendLog | Examples/DashboardDemo/DashboardDemoApp.swift:57-63 | the message is appended and the log cut to its newest entries within capacity; the tick count is unchanged |
| DashboardDemo.DemoDashboardState.AdvanceTick | Examples/DashboardDemo/DashboardDemoApp.swift:37-55 | the tick count grows by one and exactly one entry, the tick's message, is appended before trimming |
| DashboardDemo.TickEntryIsNewest | Examples/DashboardDemo/DashboardDemoApp.swift:54-63 | the tick's entry is the newest; the log grows by one until full and then stays full, keeping the newest old entries in order |
| LLMAdapter.Clamp | codex-whitespace-tui/adapter/Swift/LLMAdapter.swift:79-85 | id, type and properties carry over; the origin lies in [0, max(0, cols-1)] × [0, max(0, rows-1)]; the width is at least 10 even past the right edge and the height at least 1 |
| LLMAdapter.EnforcePolicy | codex-whitespace-tui/adapter/Swift/LLMAdapter.swift:74-87 | the policy never adds components |
| LLMAdapter.Kept | codex-whitespace-tui/adapter/Swift/LLMAdapter.swift:77-86 | the components the rail filter keeps, in order; stated by EnforcePolicyIsClampedKept, KeptComeFromInput, WideTerminalKeepsAll and NonInspectorsKept |
| LLMAdapter.Dropped | codex-whitespace-tui/adapter/Swift/LLMAdapter.swift:77-84 | an inspector is dropped exactly when the terminal is narrower than 120 columns; stated by KeptComeFromInput and NonInspectorsKept |
| LLMAdapter.EnforcePolicyIsClampedKept | codex-whitespace-tui/adapter/Swift/LLMAdapter.swift:77-86 | the output is exactly the kept components, in their input order, each clamped |
| LLMAdapter.KeptComeFromInput | codex-whitespace-tui/adapter/Swift/LLMAdapter.swift:77-84 | every kept component comes from the input, and an inspector is kept only on a terminal at least 120 columns wide |
| LLMAdapter.WideTerminalKeepsAll | codex-whitespace-tui/adapter/Swift/LLMAdapter.swift:77-84 | on a terminal at least 120 columns wide no component is dropped |
| LLMAdapter.NonInspectorsKept | codex-whitespace-tui/adapter/Swift/LLMAdapter.swift:84 | components other than inspectors are never dropped |
| LLMAdapter.FallbackLayout | codex-whitespace-tui/adapter/Swift/LLMAdapter.swift:89-98 | exactly a heading then an info card, both at column 2 with width min(76, cols-4), negative below 4 columns |
| SceneNodes.RoundedProduct | Sources/SwiftCursesKit/Scene/SceneRenderer.swift:162-175 | the rounded share of a split never exceeds the extent being split |
| SceneNodes.RoundedProductIsNearest | Sources/SwiftCursesKit/Scene/SceneRenderer.swift:162-175 | the share is the integer nearest to extent × fraction, halves rounded up, and lies in [0, extent] |

## Left out

- Native ncurses, the C shims and the closure table of CNCursesEnvironment.swift: each native call is an oracle whose result is a parameter. The key codes are constants with the values curses.h gives them; the mouse masks are a parameter of the decoder, and `EventStream.CursesMasks` holds those of curses' version-2 mouse layout.
- Concurrency: tasks, `Task.sleep`, the `AsyncStream` continuation, `NSLock` and `scheduleTicks` intervals. Only the flags, counters and emitted events are kept, as sequential state.
- Floating point: gauge values and split fractions are rationals in [0, 1]; the demos' `waveValue`, `sin`, task progress and the CPU, memory and error-budget percentages are parameters.
- Grapheme clusters: a Swift `String` is a sequence of characters, one per terminal cell, and `count`, `prefix` and `padding` work on that sequence.
- Integer width: Swift `Int` is unbounded here, so the traps on overflow of demo counters and of coordinates are not modelled; Int16 colour and pair identifiers and the 64-bit range of `Int(_:)` are.
- The network and JSON part of the LLM adapter (`generateLayout`, `AnyCodable`, the Codable request and response types), the demos' `main` functions, their help text and their printing.
- TaskBoardWidget, its `bar` and `formatted` rows, and both demos' preview renderers: they format floating-point progress and only compose the text helpers modelled in `DemoSupport`.
- The exit hook's cleanup body (`swiftCNCursesCleanup`): only the registration flag of the hook is modelled.
- Window.swift, Screen.swift, RuntimeScreen.swift, AppContext.swift, ColorPalette.swift, MouseCaptureOptions.swift and the `TerminalApp` protocols are thin wrappers or declarations; the palette is reduced to the registry it forwards to.
- RuntimeCoordination.Coordinator.Run: proved only for frame sequences in which some frame ends the loop (`LoopEnds`); a loop that never ends has no final state to state.
- RuntimeCoordination.Coordinator.Start: the screen that `standardScreen` returns is an oracle; the handle is a fresh object standing for it.
- Capabilities.Inspect: the runtime's two headless probes are one answer.
- ColorRegistry.ColorPairRegistry.Pair: requires a pair count that fits in Int16 when the decision reaches the capacity check, where the source traps; `ColorPairRegistry.PairClamped` is the variant without that condition.
- Colors.ColorFromIndex: requires an index that fits in Int16, where the source traps.
