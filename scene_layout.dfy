/** The layout walk of the scene renderer
    (Sources/SwiftCursesKit/Scene/SceneRenderer.swift, `layout`,
    `layoutStack`, `layoutSplit` and `clampSize`): every node is given a
    rectangle, and widgets append their draw commands to one buffer. */
module SceneLayout {
  import opened Wrappers
  import opened Geometry
  import opened SceneNodes
  import opened RenderBuffers
  import opened BuiltinWidgets
  import opened SceneMeasure
  import opened SpaceDistribution

  /** `clampSize(_:to:minimum:)`: each extent raised to the minimum and then
      cut to the bounds. */
  function ClampSize(size: Size, bounds: Size, minimum: Constraints): (r: Size)
    ensures r.width <= bounds.width && r.height <= bounds.height
    ensures 0 <= minimum.minWidth <= bounds.width ==> minimum.minWidth <= r.width
    ensures 0 <= minimum.minHeight <= bounds.height ==> minimum.minHeight <= r.height
    ensures minimum.minWidth <= size.width <= bounds.width ==> r.width == size.width
    ensures minimum.minHeight <= size.height <= bounds.height ==> r.height == size.height
  {
    MakeSize(Min(bounds.width, Max(minimum.minWidth, size.width)),
             Min(bounds.height, Max(minimum.minHeight, size.height)))
  }

  /** The rectangle left for a node's content once its padding is taken off. */
  function InnerRect(p: Padding, rect: Rect): Rect
  {
    Rect(Point(rect.origin.x + p.leading, rect.origin.y + p.top), Inset(p, rect.size))
  }

  /** A widget's frame: at the content origin, measured with the content
      size as its maximum and then clamped to that size. */
  function WidgetFrame(w: Widget, inner: Rect): Rect
  {
    var constraints := Constraints(0, 0, inner.size.width, inner.size.height);
    Rect(inner.origin, ClampSize(WidgetMeasure(w, constraints), inner.size, constraints))
  }

  /** A widget's frame starts at the node's origin moved by the leading and
      top padding and never reaches past the padded content area; where the
      rectangle is large enough for the padding, that area ends where the
      rectangle ends less the trailing and bottom padding. */
  lemma WidgetFrameInsidePadding(w: Widget, p: Padding, rect: Rect)
    ensures var frame := WidgetFrame(w, InnerRect(p, rect));
      frame.origin == Point(rect.origin.x + p.leading, rect.origin.y + p.top) &&
      frame.size.width <= Inset(p, rect.size).width && frame.size.height <= Inset(p, rect.size).height &&
      (rect.size.width >= p.leading + p.trailing ==> frame.MaxX() + p.trailing <= rect.MaxX()) &&
      (rect.size.height >= p.top + p.bottom ==> frame.MaxY() + p.bottom <= rect.MaxY())
  {
  }

  // ---------------------------------------------------------------- split

  /** The leading and trailing rectangles of a split: the leading extent is
      the rounded fraction of the rectangle's extent along the cut, the
      trailing one the rest. */
  function SplitRects(configuration: SplitConfiguration, rect: Rect): (Rect, Rect)
  {
    match configuration.orientation
    case VerticalSplit =>
      var leading := RoundedProduct(rect.size.width, configuration.fraction);
      var trailing := rect.size.width - leading;
      (Rect(rect.origin, MakeSize(leading, rect.size.height)),
       Rect(Point(rect.origin.x + leading, rect.origin.y), MakeSize(trailing, rect.size.height)))
    case HorizontalSplit =>
      var leading := RoundedProduct(rect.size.height, configuration.fraction);
      var trailing := rect.size.height - leading;
      (Rect(rect.origin, MakeSize(rect.size.width, leading)),
       Rect(Point(rect.origin.x, rect.origin.y + leading), MakeSize(rect.size.width, trailing)))
  }

  /** The two parts of a split tile its rectangle: their extents along the
      cut add up to the rectangle's, the trailing part starts where the
      leading one ends, and across the cut both span the whole rectangle. */
  lemma SplitPartitionsRect(configuration: SplitConfiguration, rect: Rect)
    ensures var (leading, trailing) := SplitRects(configuration, rect);
      leading.origin == rect.origin &&
      (configuration.orientation == VerticalSplit ==>
        leading.size.width == RoundedProduct(rect.size.width, configuration.fraction) &&
        leading.size.width + trailing.size.width == rect.size.width &&
        trailing.origin == Point(rect.origin.x + leading.size.width, rect.origin.y) &&
        leading.size.height == rect.size.height && trailing.size.height == rect.size.height) &&
      (configuration.orientation == HorizontalSplit ==>
        leading.size.height == RoundedProduct(rect.size.height, configuration.fraction) &&
        leading.size.height + trailing.size.height == rect.size.height &&
        trailing.origin == Point(rect.origin.x, rect.origin.y + leading.size.height) &&
        leading.size.width == rect.size.width && trailing.size.width == rect.size.width)
  {
  }

  /** A vertical split at one quarter of twenty columns gives five and
      fifteen, the trailing part starting at column five. */
  lemma QuarterSplitOfTwentyColumns(height: nat)
    ensures var (leading, trailing) :=
      SplitRects(SplitConfiguration(VerticalSplit, Ratio(1, 4)), Rect(Point(0, 0), Size(20, height)));
      leading.size.width == 5 && trailing.origin.x == 5 && trailing.size.width == 15
  {
    RoundedProductIsNearest(20, Ratio(1, 4));
  }

  // ---------------------------------------------------------------- stack

  /** Where a rectangle starts along a stack axis. */
  function MainStart(axis: StackAxis, rect: Rect): int
  {
    if axis == Vertical then rect.origin.y else rect.origin.x
  }

  /** A size's extent along a stack axis. */
  function MainExtent(axis: StackAxis, size: Size): nat
  {
    if axis == Vertical then size.height else size.width
  }

  /** The extents of `sizes` along the axis (`measuredSizes.map`). */
  function MainExtents(axis: StackAxis, sizes: seq<Size>): (r: seq<int>)
    ensures |r| == |sizes| && forall i :: 0 <= i < |sizes| ==> r[i] == MainExtent(axis, sizes[i])
  {
    seq(|sizes|, i requires 0 <= i < |sizes| => MainExtent(axis, sizes[i]))
  }

  /** A child's rectangle in a stack: at `cursor` along the axis, `extent`
      long (floored at zero), and spanning the stack across it. */
  function ChildRect(axis: StackAxis, rect: Rect, cursor: int, extent: int): Rect
  {
    if axis == Vertical then Rect(Point(rect.origin.x, cursor), MakeSize(rect.size.width, extent))
    else Rect(Point(cursor, rect.origin.y), MakeSize(extent, rect.size.height))
  }

  /** The constraints each stack child is measured with: the cross extent of
      the stack and the main extent left after the spacing. */
  function StackConstraints(axis: StackAxis, rect: Rect, available: int): Constraints
  {
    if axis == Vertical then Constraints(0, 0, rect.size.width, available)
    else Constraints(0, 0, available, rect.size.height)
  }

  /** The stack's main extent less the spacing between children, floored at
      zero. */
  function StackAvailable(axis: StackAxis, gap: nat, count: nat, rect: Rect): nat
  {
    Max(0, MainExtent(axis, rect.size) - Spacing(gap, count))
  }

  /** The shares the children of a stack node get along its axis. */
  function StackShares(n: Node, axis: StackAxis, spacing: int, rect: Rect): (r: seq<int>)
    ensures |r| == |n.children|
  {
    var gap := Max(0, spacing);
    var available := StackAvailable(axis, gap, |n.children|, rect);
    var sizes := ChildSizes(n, StackConstraints(axis, rect, available), |n.children|);
    Distribute(available, MainExtents(axis, sizes))
  }

  /** The cursor walk from child `i` on, starting at `cursor`: a child with
      no share is skipped but the cursor still moves by the gap; any other
      child gets its share cut to what is left of the stack, and the cursor
      moves past it and the gap. */
  function Placements(axis: StackAxis, gap: nat, rect: Rect, shares: seq<int>, i: nat, cursor: int): (r: seq<Option<Rect>>)
    requires i <= |shares|
    ensures |r| == |shares| - i
    decreases |shares| - i
  {
    if i == |shares| then []
    else if shares[i] <= 0 then [None] + Placements(axis, gap, rect, shares, i + 1, cursor + gap)
    else
      var extent := Min(shares[i], MainExtent(axis, rect.size) - (cursor - MainStart(axis, rect)));
      [Some(ChildRect(axis, rect, cursor, extent))] + Placements(axis, gap, rect, shares, i + 1, cursor + extent + gap)
  }

  /** Where each child of a stack node is laid out, or None when it is
      skipped. */
  function StackPlacements(n: Node, axis: StackAxis, spacing: int, rect: Rect): (r: seq<Option<Rect>>)
    ensures |r| == |n.children|
  {
    if |n.children| == 0 then []
    else Placements(axis, Max(0, spacing), rect, StackShares(n, axis, spacing, rect), 0, MainStart(axis, rect))
  }

  /** How far child `j` starts from child `i`: the shares of the children
      between them and one gap after each. */
  function Advance(shares: seq<int>, gap: nat, i: nat, j: nat): int
    requires i <= j <= |shares|
    decreases j - i
  {
    if i == j then 0 else shares[i] + gap + Advance(shares, gap, i + 1, j)
  }

  /** The cursor walk unfolded once: the first placement and the walk
      from the next child on. */
  lemma PlacementsUnfold(axis: StackAxis, gap: nat, rect: Rect, shares: seq<int>, i: nat, cursor: int)
    requires i < |shares|
    ensures var r := Placements(axis, gap, rect, shares, i, cursor);
      var extent := Min(shares[i], MainExtent(axis, rect.size) - (cursor - MainStart(axis, rect)));
      (shares[i] <= 0 ==> r[0] == None && r[1..] == Placements(axis, gap, rect, shares, i + 1, cursor + gap)) &&
      (shares[i] > 0 ==>
        r[0] == Some(ChildRect(axis, rect, cursor, extent)) &&
        r[1..] == Placements(axis, gap, rect, shares, i + 1, cursor + extent + gap))
  {
  }

  /** When the shares are non-negative and the last child ends within the
      stack, no child is cut: child `j`, if it has a share, starts `Advance`
      past the cursor and is exactly its share long, and otherwise it is
      skipped. */
  lemma {:induction false} PlacementAt(axis: StackAxis, gap: nat, rect: Rect, shares: seq<int>, i: nat, cursor: int, j: nat)
    requires i <= j < |shares|
    requires forall k :: i <= k < |shares| ==> shares[k] >= 0
    requires cursor - MainStart(axis, rect) + Advance(shares, gap, i, |shares| - 1) + shares[|shares| - 1]
      <= MainExtent(axis, rect.size)
    ensures Placements(axis, gap, rect, shares, i, cursor)[j - i] ==
      if shares[j] == 0 then None
      else Some(ChildRect(axis, rect, cursor + Advance(shares, gap, i, j), shares[j]))
    decreases j - i
  {
    var last := |shares| - 1;
    var r := Placements(axis, gap, rect, shares, i, cursor);
    AdvanceBound(shares, gap, i, last);
    assert shares[i] <= MainExtent(axis, rect.size) - (cursor - MainStart(axis, rect));
    PlacementFits(axis, gap, rect, shares, i, cursor);
    if i < j {
      var next := cursor + shares[i] + gap;
      assert Advance(shares, gap, i, last) == shares[i] + gap + Advance(shares, gap, i + 1, last);
      assert Advance(shares, gap, i, j) == shares[i] + gap + Advance(shares, gap, i + 1, j);
      PlacementAt(axis, gap, rect, shares, i + 1, next, j);
      assert r[1..] == Placements(axis, gap, rect, shares, i + 1, next);
      assert r[j - i] == r[1..][j - (i + 1)];
    } else {
      assert Advance(shares, gap, i, j) == 0;
    }
  }

  /** A child whose share fits in what is left of the stack is placed
      uncut, and the walk goes on past it and one gap. */
  lemma PlacementFits(axis: StackAxis, gap: nat, rect: Rect, shares: seq<int>, i: nat, cursor: int)
    requires i < |shares|
    requires 0 <= shares[i] <= MainExtent(axis, rect.size) - (cursor - MainStart(axis, rect))
    ensures var r := Placements(axis, gap, rect, shares, i, cursor);
      r[0] == (if shares[i] == 0 then None else Some(ChildRect(axis, rect, cursor, shares[i]))) &&
      r[1..] == Placements(axis, gap, rect, shares, i + 1, cursor + shares[i] + gap)
  {
    PlacementsUnfold(axis, gap, rect, shares, i, cursor);
  }

  /** Each share before child `j` fits within the advance to it. */
  lemma {:induction false} AdvanceBound(shares: seq<int>, gap: nat, i: nat, j: nat)
    requires i <= j < |shares|
    requires forall k :: i <= k < |shares| ==> shares[k] >= 0
    ensures shares[i] <= Advance(shares, gap, i, j) + shares[j]
    ensures Advance(shares, gap, i, j) >= 0
    decreases j - i
  {
    if i < j {
      AdvanceBound(shares, gap, i + 1, j);
    }
  }

  /** The advance to the last child plus its share is the sum of the shares
      plus one gap between each pair of neighbours. */
  lemma {:induction false} AdvanceToLast(shares: seq<int>, gap: nat, i: nat)
    requires i < |shares|
    ensures Advance(shares, gap, i, |shares| - 1) + shares[|shares| - 1] ==
      Sum(shares[i..]) + Spacing(gap, |shares| - i)
    decreases |shares| - i
  {
    if i < |shares| - 1 {
      AdvanceToLast(shares, gap, i + 1);
      assert shares[i..][1..] == shares[i + 1..];
    } else {
      assert shares[i..] == [shares[i]];
    }
  }

  /** When the stack is at least as long as the spacing between its
      children, its children tile it: in order, each exactly as long as its
      share, one gap apart, the last ending where the stack ends; children
      without a share are skipped. */
  lemma StackTiles(n: Node, axis: StackAxis, spacing: int, rect: Rect)
    requires |n.children| > 0
    requires MainExtent(axis, rect.size) >= Spacing(Max(0, spacing), |n.children|)
    ensures var shares := StackShares(n, axis, spacing, rect);
      var gap := Max(0, spacing);
      var last := |n.children| - 1;
      Advance(shares, gap, 0, last) + shares[last] == MainExtent(axis, rect.size) &&
      forall j :: 0 <= j < |n.children| ==>
        shares[j] >= 0 &&
        StackPlacements(n, axis, spacing, rect)[j] ==
          if shares[j] == 0 then None
          else Some(ChildRect(axis, rect, MainStart(axis, rect) + Advance(shares, gap, 0, j), shares[j]))
  {
    var shares := StackShares(n, axis, spacing, rect);
    var gap := Max(0, spacing);
    var available := StackAvailable(axis, gap, |n.children|, rect);
    var sizes := ChildSizes(n, StackConstraints(axis, rect, available), |n.children|);
    assert shares == Distribute(available, MainExtents(axis, sizes));
    if available > 0 {
      DistributeFillsAvailable(available, MainExtents(axis, sizes));
    } else {
      DistributeNoRoom(available, MainExtents(axis, sizes));
    }
    assert shares[0..] == shares;
    AdvanceToLast(shares, gap, 0);
    forall j | 0 <= j < |n.children|
      ensures StackPlacements(n, axis, spacing, rect)[j] ==
        if shares[j] == 0 then None
        else Some(ChildRect(axis, rect, MainStart(axis, rect) + Advance(shares, gap, 0, j), shares[j]))
    {
      PlacementAt(axis, gap, rect, shares, 0, MainStart(axis, rect), j);
    }
  }

  /** A stack no longer than the spacing between its children has no room:
      every child is skipped. */
  lemma StackWithoutRoom(n: Node, axis: StackAxis, spacing: int, rect: Rect)
    requires MainExtent(axis, rect.size) <= Spacing(Max(0, spacing), |n.children|)
    ensures forall j :: 0 <= j < |n.children| ==> StackPlacements(n, axis, spacing, rect)[j].None?
  {
    if |n.children| > 0 {
      var shares := StackShares(n, axis, spacing, rect);
      var gap := Max(0, spacing);
      var available := StackAvailable(axis, gap, |n.children|, rect);
      assert available == 0;
      var sizes := ChildSizes(n, StackConstraints(axis, rect, available), |n.children|);
      assert shares == Distribute(available, MainExtents(axis, sizes));
      assert StackPlacements(n, axis, spacing, rect) == Placements(axis, gap, rect, shares, 0, MainStart(axis, rect));
      assert forall j :: 0 <= j < |shares| ==> shares[j] == 0;
      SkippedAll(axis, gap, rect, shares, 0, MainStart(axis, rect));
      assert forall k :: 0 <= k < |shares| ==> Placements(axis, gap, rect, shares, 0, MainStart(axis, rect))[k].None?;
    }
  }

  /** Children without a share are all skipped, whatever the cursor. */
  lemma {:induction false} SkippedAll(axis: StackAxis, gap: nat, rect: Rect, shares: seq<int>, i: nat, cursor: int)
    requires i <= |shares|
    requires forall j :: i <= j < |shares| ==> shares[j] == 0
    ensures var r := Placements(axis, gap, rect, shares, i, cursor);
      forall k :: 0 <= k < |r| ==> r[k].None?
    decreases |shares| - i
  {
    if i < |shares| {
      SkippedAll(axis, gap, rect, shares, i + 1, cursor + gap);
      assert Placements(axis, gap, rect, shares, i, cursor) ==
        [None] + Placements(axis, gap, rect, shares, i + 1, cursor + gap);
    }
  }

  /** Two rows of natural height two in a six-row vertical stack with one
      row of spacing: the free five rows go four to the first child and one
      to the second, so the second child starts at row five. */
  lemma TwoRowStackPlacements(first: Node, second: Node, width: nat)
    ensures var stack := Node(Stack(Vertical, 1), [first, second], DefaultModifiers);
      StackPlacements(stack, Vertical, 1, Rect(Point(0, 0), Size(width, 6))) ==
        [Some(Rect(Point(0, 0), Size(width, 4))), Some(Rect(Point(0, 5), Size(width, 1)))]
  {
    var stack := Node(Stack(Vertical, 1), [first, second], DefaultModifiers);
    var rect := Rect(Point(0, 0), Size(width, 6));
    var available := StackAvailable(Vertical, 1, 2, rect);
    assert available == 5;
    var sizes := ChildSizes(stack, StackConstraints(Vertical, rect, available), 2);
    DistributeIgnoresNaturalSizes(5, MainExtents(Vertical, sizes));
    var shares := StackShares(stack, Vertical, 1, rect);
    assert shares == [4, 1];
    assert StackPlacements(stack, Vertical, 1, rect) == Placements(Vertical, 1, rect, shares, 0, 0);
    assert Placements(Vertical, 1, rect, shares, 2, 6) == [];
    assert Placements(Vertical, 1, rect, shares, 1, 5) == [Some(Rect(Point(0, 5), Size(width, 1)))];
  }

  /** The same stack with natural shares, as its test expects: the two
      children keep their two rows each and the second starts at row three,
      after the first and one row of spacing. */
  lemma NaturalTwoRowStackPlacements(width: nat)
    ensures Placements(Vertical, 1, Rect(Point(0, 0), Size(width, 6)), NaturalDistribute(5, [2, 2]), 0, 0) ==
      [Some(Rect(Point(0, 0), Size(width, 2))), Some(Rect(Point(0, 3), Size(width, 2)))]
  {
    var rect := Rect(Point(0, 0), Size(width, 6));
    NaturalSharesOfLayoutTests();
    assert Placements(Vertical, 1, rect, [2, 2], 2, 6) == [];
    assert Placements(Vertical, 1, rect, [2, 2], 1, 3) == [Some(Rect(Point(0, 3), Size(width, 2)))];
  }

  // ---------------------------------------------------------------- commands

  /** The commands the layout of `n` within `rect` appends. */
  function LayoutCommands(n: Node, rect: Rect): seq<DrawCommand>
    decreases n, 2
  {
    var inner := InnerRect(n.modifiers.padding, rect);
    match n.kind
    case Group => ChildrenCommands(n, inner, 0)
    case Stack(axis, spacing) =>
      if |n.children| == 0 then []
      else WalkCommands(n, axis, Max(0, spacing), inner, StackShares(n, axis, spacing, inner), 0, MainStart(axis, inner))
    case Split(configuration) => SplitCommands(n, configuration, inner)
    case WidgetLeaf(w) => WidgetCommands(w, WidgetFrame(w, inner))
  }

  /** Children `i` onwards, each laid out in the same rectangle. */
  function ChildrenCommands(n: Node, rect: Rect, i: nat): seq<DrawCommand>
    requires i <= |n.children|
    decreases n, 1, |n.children| - i
  {
    if i == |n.children| then []
    else LayoutCommands(n.children[i], rect) + ChildrenCommands(n, rect, i + 1)
  }

  /** Children `i` onwards, each in its own placement; skipped children add
      nothing. */
  function PlacedCommands(n: Node, placements: seq<Option<Rect>>, i: nat): seq<DrawCommand>
    requires |placements| == |n.children| && i <= |n.children|
    decreases n, 1, |n.children| - i
  {
    if i == |n.children| then []
    else
      (match placements[i] case None => [] case Some(r) => LayoutCommands(n.children[i], r)) +
      PlacedCommands(n, placements, i + 1)
  }

  /** The cursor walk of a stack from child `i` on, laying out each child
      with a share where `Placements` puts it. */
  function WalkCommands(n: Node, axis: StackAxis, gap: nat, rect: Rect, shares: seq<int>, i: nat, cursor: int): seq<DrawCommand>
    requires |shares| == |n.children| && i <= |n.children|
    decreases n, 1, |n.children| - i
  {
    if i == |n.children| then []
    else if shares[i] <= 0 then WalkCommands(n, axis, gap, rect, shares, i + 1, cursor + gap)
    else
      var extent := Min(shares[i], MainExtent(axis, rect.size) - (cursor - MainStart(axis, rect)));
      LayoutCommands(n.children[i], ChildRect(axis, rect, cursor, extent)) +
      WalkCommands(n, axis, gap, rect, shares, i + 1, cursor + extent + gap)
  }

  /** The walk draws exactly what laying out each child in its placement
      draws, in order. */
  lemma {:induction false} WalkIsPlaced(n: Node, axis: StackAxis, gap: nat, rect: Rect, shares: seq<int>, i: nat, cursor: int,
                                        placements: seq<Option<Rect>>)
    requires |shares| == |n.children| == |placements| && i <= |n.children|
    requires placements[i..] == Placements(axis, gap, rect, shares, i, cursor)
    ensures WalkCommands(n, axis, gap, rect, shares, i, cursor) == PlacedCommands(n, placements, i)
    decreases |n.children| - i
  {
    if i < |n.children| {
      PlacementsStep(axis, gap, rect, shares, i, cursor, placements);
      var extent := Min(shares[i], MainExtent(axis, rect.size) - (cursor - MainStart(axis, rect)));
      var next := if shares[i] <= 0 then cursor + gap else cursor + extent + gap;
      WalkIsPlaced(n, axis, gap, rect, shares, i + 1, next, placements);
    }
  }

  /** A stack node draws its children, in order, each in its placement. */
  lemma StackDrawsPlacedChildren(n: Node, rect: Rect)
    requires n.kind.Stack?
    ensures var inner := InnerRect(n.modifiers.padding, rect);
      LayoutCommands(n, rect) == PlacedCommands(n, StackPlacements(n, n.kind.axis, n.kind.spacing, inner), 0)
  {
    var inner := InnerRect(n.modifiers.padding, rect);
    if |n.children| > 0 {
      var placements := StackPlacements(n, n.kind.axis, n.kind.spacing, inner);
      assert placements[0..] == placements;
      WalkIsPlaced(n, n.kind.axis, Max(0, n.kind.spacing), inner, StackShares(n, n.kind.axis, n.kind.spacing, inner),
                   0, MainStart(n.kind.axis, inner), placements);
    }
  }

  /** A split with fewer than two children lays each out in the whole
      rectangle; otherwise only the first two are laid out. */
  function SplitCommands(n: Node, configuration: SplitConfiguration, rect: Rect): seq<DrawCommand>
    decreases n, 1
  {
    if |n.children| < 2 then ChildrenCommands(n, rect, 0)
    else
      var (leading, trailing) := SplitRects(configuration, rect);
      LayoutCommands(n.children[0], leading) + LayoutCommands(n.children[1], trailing)
  }

  /** A split lays out its first two children in the two parts of its
      content rectangle; further children draw nothing. */
  lemma SplitIgnoresExtraChildren(n: Node, rect: Rect)
    requires n.kind.Split? && |n.children| >= 2
    ensures var (leading, trailing) := SplitRects(n.kind.configuration, InnerRect(n.modifiers.padding, rect));
      LayoutCommands(n, rect) ==
        LayoutCommands(n.children[0], leading) + LayoutCommands(n.children[1], trailing)
  {
  }

  // ---------------------------------------------------------------- methods

  /** `layout(node:in:buffer:)`. */
  method Layout(n: Node, rect: Rect, buffer: RenderBuffer)
    modifies buffer
    ensures buffer.commands == old(buffer.commands) + LayoutCommands(n, rect)
    decreases n, 2
  {
    var inner := InnerRect(n.modifiers.padding, rect);
    match n.kind {
      case Group =>
        LayoutChildren(n, inner, buffer);
      case Stack(axis, spacing) =>
        LayoutStack(n, axis, spacing, inner, buffer);
      case Split(configuration) =>
        LayoutSplit(n, configuration, inner, buffer);
      case WidgetLeaf(w) =>
        var constraints := Constraints(0, 0, inner.size.width, inner.size.height);
        var measured := ClampSize(WidgetMeasure(w, constraints), inner.size, constraints);
        RenderWidget(w, Rect(inner.origin, measured), buffer);
    }
  }

  /** Lays out every child in the same rectangle, in order. */
  method LayoutChildren(n: Node, rect: Rect, buffer: RenderBuffer)
    modifies buffer
    ensures buffer.commands == old(buffer.commands) + ChildrenCommands(n, rect, 0)
    decreases n, 0
  {
    var i := 0;
    while i < |n.children|
      invariant 0 <= i <= |n.children|
      invariant old(buffer.commands) + ChildrenCommands(n, rect, 0) == buffer.commands + ChildrenCommands(n, rect, i)
    {
      Layout(n.children[i], rect, buffer);
      i := i + 1;
    }
  }

  /** `layoutSplit(configuration:node:in:buffer:)`. */
  method LayoutSplit(n: Node, configuration: SplitConfiguration, rect: Rect, buffer: RenderBuffer)
    modifies buffer
    ensures buffer.commands == old(buffer.commands) + SplitCommands(n, configuration, rect)
    decreases n, 1
  {
    if |n.children| < 2 {
      LayoutChildren(n, rect, buffer);
      return;
    }
    var (leading, trailing) := SplitRects(configuration, rect);
    Layout(n.children[0], leading, buffer);
    Layout(n.children[1], trailing, buffer);
  }

  /** `layoutStack(axis:spacing:node:in:buffer:)`: measure the children,
      share out the extent left after the spacing, then walk a cursor along
      the axis. */
  method LayoutStack(n: Node, axis: StackAxis, spacing: int, rect: Rect, buffer: RenderBuffer)
    modifies buffer
    ensures buffer.commands == old(buffer.commands) +
      if |n.children| == 0 then []
      else WalkCommands(n, axis, Max(0, spacing), rect, StackShares(n, axis, spacing, rect), 0, MainStart(axis, rect))
    decreases n, 1
  {
    if |n.children| == 0 {
      return;
    }
    var gap := Max(0, spacing);
    var totalSpacing := gap * Max(0, |n.children| - 1);
    SpacingIsProduct(gap, |n.children|);
    var available := Max(0, MainExtent(axis, rect.size) - totalSpacing);
    var constraints := StackConstraints(axis, rect, available);
    var measuredSizes := MeasureChildren(n, constraints);
    var shares := DistributeSpace(available, MainExtents(axis, measuredSizes));
    assert shares == StackShares(n, axis, spacing, rect);
    PlaceChildren(n, axis, gap, rect, shares, buffer);
  }

  /** Measures every child of `n` under the same constraints. */
  method MeasureChildren(n: Node, constraints: Constraints) returns (sizes: seq<Size>)
    ensures sizes == ChildSizes(n, constraints, |n.children|)
  {
    sizes := [];
    var i := 0;
    while i < |n.children|
      invariant 0 <= i <= |n.children|
      invariant sizes == ChildSizes(n, constraints, i)
    {
      var size := MeasureNode(n.children[i], constraints);
      ChildSizesExtend(n, constraints, i);
      sizes := sizes + [size];
      i := i + 1;
    }
  }

  /** The cursor walk of a stack: each child with a share is laid out at the
      cursor, cut to what is left of the stack. */
  method PlaceChildren(n: Node, axis: StackAxis, gap: nat, rect: Rect, shares: seq<int>, buffer: RenderBuffer)
    requires |shares| == |n.children|
    modifies buffer
    ensures buffer.commands == old(buffer.commands) +
      WalkCommands(n, axis, gap, rect, shares, 0, MainStart(axis, rect))
    decreases n, 0
  {
    var cursor := MainStart(axis, rect);
    var index := 0;
    while index < |n.children|
      invariant 0 <= index <= |n.children|
      invariant old(buffer.commands) + WalkCommands(n, axis, gap, rect, shares, 0, MainStart(axis, rect)) ==
        buffer.commands + WalkCommands(n, axis, gap, rect, shares, index, cursor)
    {
      if shares[index] <= 0 {
        cursor := cursor + gap;
      } else {
        var extent := Min(shares[index], MainExtent(axis, rect.size) - (cursor - MainStart(axis, rect)));
        Layout(n.children[index], ChildRect(axis, rect, cursor, extent), buffer);
        cursor := cursor + extent + gap;
      }
      index := index + 1;
    }
  }

  /** One step of the cursor walk, read off a suffix of the placements. */
  lemma PlacementsStep(axis: StackAxis, gap: nat, rect: Rect, shares: seq<int>, i: nat, cursor: int,
                       placements: seq<Option<Rect>>)
    requires i < |shares| && |placements| == |shares|
    requires placements[i..] == Placements(axis, gap, rect, shares, i, cursor)
    ensures shares[i] <= 0 ==>
      placements[i] == None &&
      placements[i + 1..] == Placements(axis, gap, rect, shares, i + 1, cursor + gap)
    ensures shares[i] > 0 ==>
      var extent := Min(shares[i], MainExtent(axis, rect.size) - (cursor - MainStart(axis, rect)));
      placements[i] == Some(ChildRect(axis, rect, cursor, extent)) &&
      placements[i + 1..] == Placements(axis, gap, rect, shares, i + 1, cursor + extent + gap)
  {
    assert placements[i..][1..] == placements[i + 1..];
  }

  /** The commands of a whole scene: each top-level node laid out in the
      same rectangle, in order. */
  function SceneCommands(nodes: seq<Node>, root: Rect): seq<DrawCommand>
  {
    if |nodes| == 0 then [] else SceneCommands(nodes[..|nodes| - 1], root) + LayoutCommands(nodes[|nodes| - 1], root)
  }

  /** The layout loop of `render`: every top-level node in the root
      rectangle, into a fresh buffer. */
  method LayoutScene(nodes: seq<Node>, root: Rect) returns (buffer: RenderBuffer)
    ensures fresh(buffer)
    ensures buffer.commands == SceneCommands(nodes, root)
  {
    buffer := new RenderBuffer();
    var i := 0;
    while i < |nodes|
      invariant 0 <= i <= |nodes|
      invariant buffer.commands == SceneCommands(nodes[..i], root)
    {
      Layout(nodes[i], root, buffer);
      assert nodes[..i + 1][..i] == nodes[..i];
      i := i + 1;
    }
    assert nodes[..i] == nodes;
  }

  /** A scene's draws are its first node's draws followed by the rest's. */
  lemma {:induction false} SceneCommandsPrepend(first: Node, rest: seq<Node>, root: Rect)
    ensures SceneCommands([first] + rest, root) == LayoutCommands(first, root) + SceneCommands(rest, root)
    decreases |rest|
  {
    if |rest| > 0 {
      var all := [first] + rest;
      assert all[..|all| - 1] == [first] + rest[..|rest| - 1];
      SceneCommandsPrepend(first, rest[..|rest| - 1], root);
    } else {
      assert [first] + rest == [first];
      assert [first][..0] == [];
    }
  }

  /** A group draws its children from `i` on exactly as a scene made of
      those children draws them. */
  lemma {:induction false} ChildrenAsScene(n: Node, rect: Rect, i: nat)
    requires i <= |n.children|
    ensures ChildrenCommands(n, rect, i) == SceneCommands(n.children[i..], rect)
    decreases |n.children| - i
  {
    if i < |n.children| {
      ChildrenAsScene(n, rect, i + 1);
      assert n.children[i..] == [n.children[i]] + n.children[i + 1..];
      SceneCommandsPrepend(n.children[i], n.children[i + 1..], rect);
    }
  }

  /** An unpadded group draws its children as a scene of them would. */
  lemma GroupDrawsChildren(g: Node, rect: Rect)
    requires g.kind == Group && g.modifiers.padding == ZeroPadding
    ensures LayoutCommands(g, rect) == SceneCommands(g.children, rect)
  {
    InsetZeroIsIdentity(rect.size);
    assert InnerRect(g.modifiers.padding, rect) == rect;
    ChildrenAsScene(g, rect, 0);
    assert g.children[0..] == g.children;
  }

  /** A one-node scene draws what its node draws. */
  lemma SingleNodeScene(n: Node, root: Rect)
    ensures SceneCommands([n], root) == LayoutCommands(n, root)
  {
    assert [n][..0] == [];
  }
}
