/** The measure pass of the scene renderer
    (Sources/SwiftCursesKit/Scene/SceneRenderer.swift, `measure`): a node's
    natural size within constraints, computed bottom-up over the tree. */
module SceneMeasure {
  import opened Geometry
  import opened SceneNodes
  import opened BuiltinWidgets

  /** The constraints handed to a node's content: every bound shrunk by the
      padding and floored at zero. */
  function InsetConstraints(c: Constraints, p: Padding): (r: Constraints)
    ensures 0 <= r.minWidth && 0 <= r.minHeight && 0 <= r.maxWidth && 0 <= r.maxHeight
    ensures r.maxWidth <= Max(0, c.maxWidth) && r.maxHeight <= Max(0, c.maxHeight)
    ensures p == ZeroPadding ==>
      r == Constraints(Max(0, c.minWidth), Max(0, c.minHeight), Max(0, c.maxWidth), Max(0, c.maxHeight))
  {
    Constraints(
      Max(0, c.minWidth - p.leading - p.trailing),
      Max(0, c.minHeight - p.top - p.bottom),
      Max(0, c.maxWidth - p.leading - p.trailing),
      Max(0, c.maxHeight - p.top - p.bottom))
  }

  /** The widest of `sizes`, or 0 when there are none. */
  function WidestOf(sizes: seq<Size>): (r: nat)
    ensures forall i :: 0 <= i < |sizes| ==> sizes[i].width <= r
    ensures |sizes| == 0 ==> r == 0
    ensures |sizes| > 0 ==> exists i :: 0 <= i < |sizes| && sizes[i].width == r
  {
    if |sizes| == 0 then 0 else Max(WidestOf(sizes[..|sizes| - 1]), sizes[|sizes| - 1].width)
  }

  /** The tallest of `sizes`, or 0 when there are none. */
  function TallestOf(sizes: seq<Size>): (r: nat)
    ensures forall i :: 0 <= i < |sizes| ==> sizes[i].height <= r
    ensures |sizes| == 0 ==> r == 0
    ensures |sizes| > 0 ==> exists i :: 0 <= i < |sizes| && sizes[i].height == r
  {
    if |sizes| == 0 then 0 else Max(TallestOf(sizes[..|sizes| - 1]), sizes[|sizes| - 1].height)
  }

  /** The widths of `sizes` added up. */
  function TotalWidth(sizes: seq<Size>): (r: nat)
    ensures forall i :: 0 <= i < |sizes| ==> sizes[i].width <= r
  {
    if |sizes| == 0 then 0 else TotalWidth(sizes[..|sizes| - 1]) + sizes[|sizes| - 1].width
  }

  /** The heights of `sizes` added up. */
  function TotalHeight(sizes: seq<Size>): (r: nat)
    ensures forall i :: 0 <= i < |sizes| ==> sizes[i].height <= r
  {
    if |sizes| == 0 then 0 else TotalHeight(sizes[..|sizes| - 1]) + sizes[|sizes| - 1].height
  }

  /** The room `count` items take up with `gap` cells between neighbours:
      `gap * max(0, count - 1)`. */
  function Spacing(gap: nat, count: nat): nat
  {
    if count <= 1 then 0 else Spacing(gap, count - 1) + gap
  }

  /** The recursive spacing is the product the renderer computes. */
  lemma {:induction false} SpacingIsProduct(gap: nat, count: nat)
    ensures Spacing(gap, count) == gap * Max(0, count - 1)
    decreases count
  {
    if count > 1 {
      SpacingIsProduct(gap, count - 1);
      assert gap * (count - 1) == gap * (count - 2) + gap;
    }
  }

  /** The sizes of the first `k` children of `n`, each measured within `c`. */
  function ChildSizes(n: Node, c: Constraints, k: nat): (r: seq<Size>)
    requires k <= |n.children|
    ensures |r| == k
    decreases n, 0, k
  {
    seq(k, i requires 0 <= i < k => Measure(n.children[i], c))
  }

  lemma ChildSizesAt(n: Node, c: Constraints, k: nat, i: nat)
    requires i < k <= |n.children|
    ensures ChildSizes(n, c, k)[i] == Measure(n.children[i], c)
  {
  }

  lemma ChildSizesExtend(n: Node, c: Constraints, k: nat)
    requires k < |n.children|
    ensures ChildSizes(n, c, k + 1) == ChildSizes(n, c, k) + [Measure(n.children[k], c)]
  {
  }

  /** The content size of a node of kind `kind` whose children measured
      `sizes` within `c`. A split with fewer than two children takes its
      first child's size; with more, only the first two count. */
  function ContentSize(kind: Kind, sizes: seq<Size>, c: Constraints): Size
  {
    match kind
    case Group => Size(WidestOf(sizes), TallestOf(sizes))
    case Stack(Vertical, spacing) =>
      Size(WidestOf(sizes), TotalHeight(sizes) + Spacing(Max(0, spacing), |sizes|))
    case Stack(Horizontal, spacing) =>
      Size(TotalWidth(sizes) + Spacing(Max(0, spacing), |sizes|), TallestOf(sizes))
    case Split(configuration) =>
      if |sizes| == 0 then ZeroSize
      else if |sizes| == 1 then sizes[0]
      else if configuration.orientation == VerticalSplit then
        Size(sizes[0].width + sizes[1].width, Max(sizes[0].height, sizes[1].height))
      else
        Size(Max(sizes[0].width, sizes[1].width), sizes[0].height + sizes[1].height)
    case WidgetLeaf(w) => WidgetMeasure(w, c)
  }

  /** `size` grown by the padding on every side. */
  function Padded(size: Size, p: Padding): (r: Size)
    ensures Inset(p, r) == size
  {
    Size(size.width + p.leading + p.trailing, size.height + p.top + p.bottom)
  }

  /** The size a node asks for before the constraints clamp it: its content
      measured within the inset constraints, with the padding added back. */
  function NaturalSize(n: Node, c: Constraints): Size
    decreases n, 1
  {
    var inset := InsetConstraints(c, n.modifiers.padding);
    Padded(ContentSize(n.kind, ChildSizes(n, inset, |n.children|), inset), n.modifiers.padding)
  }

  /** A node's measured size: its natural size clamped to the constraints. */
  function Measure(n: Node, c: Constraints): Size
    decreases n, 2
  {
    c.Clamped(NaturalSize(n, c))
  }

  /** A measured size always lies within constraints whose bounds are
      consistent, never exceeds a non-negative maximum, and is the natural
      size whenever that fits. */
  lemma MeasureWithinConstraints(n: Node, c: Constraints)
    ensures Measure(n, c).width <= Max(0, c.maxWidth) && Measure(n, c).height <= Max(0, c.maxHeight)
    ensures 0 <= c.minWidth <= c.maxWidth ==> c.minWidth <= Measure(n, c).width
    ensures 0 <= c.minHeight <= c.maxHeight ==> c.minHeight <= Measure(n, c).height
    ensures (c.minWidth <= NaturalSize(n, c).width <= c.maxWidth &&
             c.minHeight <= NaturalSize(n, c).height <= c.maxHeight) ==> Measure(n, c) == NaturalSize(n, c)
  {
  }

  /** A stack's natural size holds each child with the stack's padding
      around it: a vertical stack is at least as tall as any child plus its
      top and bottom padding and as wide as any child plus its side padding,
      and a horizontal stack likewise. */
  lemma StackHoldsEachChild(n: Node, c: Constraints, i: nat)
    requires n.kind.Stack? && i < |n.children|
    ensures var p := n.modifiers.padding;
      var child := Measure(n.children[i], InsetConstraints(c, p));
      child.width + p.leading + p.trailing <= NaturalSize(n, c).width &&
      child.height + p.top + p.bottom <= NaturalSize(n, c).height
  {
    var p := n.modifiers.padding;
    var inset := InsetConstraints(c, p);
    var sizes := ChildSizes(n, inset, |n.children|);
    assert sizes[i] == Measure(n.children[i], inset);
    assert sizes[i].width <= WidestOf(sizes) && sizes[i].width <= TotalWidth(sizes);
    assert sizes[i].height <= TallestOf(sizes) && sizes[i].height <= TotalHeight(sizes);
  }

  /** The spacing already added after the first `i` of `count` children:
      one gap after each child but the last. */
  function SpacingAfter(gap: nat, i: nat, count: nat): nat
  {
    if i < count then Spacing(gap, i + 1) else Spacing(gap, count)
  }

  /** The measure pass as the renderer runs it: one recursive call per
      child, folded into running width and height totals. */
  method MeasureNode(n: Node, c: Constraints) returns (size: Size)
    ensures size == Measure(n, c)
    decreases n, 2
  {
    var inset := InsetConstraints(c, n.modifiers.padding);
    var content := MeasureContent(n, inset);
    size := c.Clamped(Padded(content, n.modifiers.padding));
  }

  method MeasureContent(n: Node, inset: Constraints) returns (content: Size)
    ensures content == ContentSize(n.kind, ChildSizes(n, inset, |n.children|), inset)
    decreases n, 1
  {
    match n.kind {
      case Group =>
        content := MeasureGroup(n, inset);
      case Stack(Vertical, spacing) =>
        content := MeasureVerticalStack(n, spacing, inset);
      case Stack(Horizontal, spacing) =>
        content := MeasureHorizontalStack(n, spacing, inset);
      case Split(configuration) =>
        content := MeasureSplit(n, configuration, inset);
      case WidgetLeaf(w) =>
        content := WidgetMeasure(w, inset);
    }
  }

  method MeasureGroup(n: Node, inset: Constraints) returns (content: Size)
    requires n.kind.Group?
    ensures content == ContentSize(n.kind, ChildSizes(n, inset, |n.children|), inset)
    decreases n, 0
  {
    var width, height := 0, 0;
    var i := 0;
    while i < |n.children|
      invariant 0 <= i <= |n.children|
      invariant width == WidestOf(ChildSizes(n, inset, i))
      invariant height == TallestOf(ChildSizes(n, inset, i))
    {
      var childSize := MeasureNode(n.children[i], inset);
      FoldsStep(ChildSizes(n, inset, i), childSize);
      ChildSizesExtend(n, inset, i);
      width := Max(width, childSize.width);
      height := Max(height, childSize.height);
      i := i + 1;
    }
    content := Size(width, height);
  }

  /** One more child adds one gap unless it is the last. */
  lemma SpacingAfterStep(gap: nat, i: nat, count: nat)
    requires i < count
    ensures SpacingAfter(gap, i + 1, count) == SpacingAfter(gap, i, count) + (if i < count - 1 then gap else 0)
  {
  }

  /** The four folds over one more size. */
  lemma FoldsStep(sizes: seq<Size>, x: Size)
    ensures WidestOf(sizes + [x]) == Max(WidestOf(sizes), x.width)
    ensures TallestOf(sizes + [x]) == Max(TallestOf(sizes), x.height)
    ensures TotalWidth(sizes + [x]) == TotalWidth(sizes) + x.width
    ensures TotalHeight(sizes + [x]) == TotalHeight(sizes) + x.height
  {
    assert (sizes + [x])[..|sizes|] == sizes;
  }

  method MeasureVerticalStack(n: Node, spacing: int, inset: Constraints) returns (content: Size)
    requires n.kind == Stack(Vertical, spacing)
    ensures content == ContentSize(n.kind, ChildSizes(n, inset, |n.children|), inset)
    decreases n, 0
  {
    var width, height := 0, 0;
    var gap := Max(0, spacing);
    var i := 0;
    while i < |n.children|
      invariant 0 <= i <= |n.children|
      invariant width == WidestOf(ChildSizes(n, inset, i))
      invariant height == TotalHeight(ChildSizes(n, inset, i)) + SpacingAfter(gap, i, |n.children|)
    {
      var childSize := MeasureNode(n.children[i], inset);
      SpacingAfterStep(gap, i, |n.children|);
      FoldsStep(ChildSizes(n, inset, i), childSize);
      ChildSizesExtend(n, inset, i);
      width := Max(width, childSize.width);
      height := height + childSize.height;
      if i < |n.children| - 1 {
        height := height + gap;
      }
      i := i + 1;
    }
    content := Size(width, height);
  }

  method MeasureHorizontalStack(n: Node, spacing: int, inset: Constraints) returns (content: Size)
    requires n.kind == Stack(Horizontal, spacing)
    ensures content == ContentSize(n.kind, ChildSizes(n, inset, |n.children|), inset)
    decreases n, 0
  {
    var width, height := 0, 0;
    var gap := Max(0, spacing);
    var i := 0;
    while i < |n.children|
      invariant 0 <= i <= |n.children|
      invariant width == TotalWidth(ChildSizes(n, inset, i)) + SpacingAfter(gap, i, |n.children|)
      invariant height == TallestOf(ChildSizes(n, inset, i))
    {
      var childSize := MeasureNode(n.children[i], inset);
      SpacingAfterStep(gap, i, |n.children|);
      FoldsStep(ChildSizes(n, inset, i), childSize);
      ChildSizesExtend(n, inset, i);
      width := width + childSize.width;
      if i < |n.children| - 1 {
        width := width + gap;
      }
      height := Max(height, childSize.height);
      i := i + 1;
    }
    content := Size(width, height);
  }

  method MeasureSplit(n: Node, configuration: SplitConfiguration, inset: Constraints) returns (content: Size)
    requires n.kind == Split(configuration)
    ensures content == ContentSize(n.kind, ChildSizes(n, inset, |n.children|), inset)
    decreases n, 0
  {
    if |n.children| < 2 {
      if |n.children| == 0 {
        content := ZeroSize;
      } else {
        content := MeasureNode(n.children[0], inset);
        ChildSizesAt(n, inset, |n.children|, 0);
      }
      return;
    }
    var leadingSize := MeasureNode(n.children[0], inset);
    var trailingSize := MeasureNode(n.children[1], inset);
    ChildSizesAt(n, inset, |n.children|, 0);
    ChildSizesAt(n, inset, |n.children|, 1);
    if configuration.orientation == VerticalSplit {
      content := Size(leadingSize.width + trailingSize.width, Max(leadingSize.height, trailingSize.height));
    } else {
      content := Size(Max(leadingSize.width, trailingSize.width), leadingSize.height + trailingSize.height);
    }
  }
}
