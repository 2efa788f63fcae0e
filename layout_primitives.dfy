/** The scene primitives (Sources/SwiftCursesKit/Scene/LayoutPrimitives.swift):
    each one turns its arguments and content into the scene nodes it
    stands for. Double-valued arguments are rationals here. */
module LayoutPrimitives {
  import opened Geometry
  import opened SceneNodes
  import opened SceneBuilder
  import opened SceneLayout

  /** `VStack(spacing:content:)`: one vertical stack over the content; the
      spacing is raised to zero. */
  function VStack(spacing: int, content: SceneCollection): (r: SceneCollection)
    ensures |r| == 1 && r[0].children == content && r[0].modifiers.padding == ZeroPadding
    ensures r[0].kind == Stack(Vertical, Max(0, spacing)) && r[0].kind.spacing >= 0
  {
    [Node(Stack(Vertical, Max(0, spacing)), content, DefaultModifiers)]
  }

  /** The spacing a `VStack` gets when none is given. */
  const DefaultVStackSpacing: int := 0

  /** `HStack(spacing:content:)`: one horizontal stack over the content; the
      spacing is raised to zero. */
  function HStack(spacing: int, content: SceneCollection): (r: SceneCollection)
    ensures |r| == 1 && r[0].children == content && r[0].modifiers.padding == ZeroPadding
    ensures r[0].kind == Stack(Horizontal, Max(0, spacing)) && r[0].kind.spacing >= 0
  {
    [Node(Stack(Horizontal, Max(0, spacing)), content, DefaultModifiers)]
  }

  /** The spacing an `HStack` gets when none is given. */
  const DefaultHStackSpacing: int := 1

  /** `Split(_:fraction:leading:trailing:)`: one split node with exactly two
      group children, the leading content first; the fraction is clamped
      into [0, 1]. */
  function SplitScene(orientation: Orientation, fraction: Rational,
                      leading: SceneCollection, trailing: SceneCollection): (r: SceneCollection)
    ensures |r| == 1 && |r[0].children| == 2
    ensures r[0].kind == Split(MakeSplitConfiguration(orientation, fraction))
    ensures r[0].children[0].kind == Group && r[0].children[0].children == leading
    ensures r[0].children[1].kind == Group && r[0].children[1].children == trailing
  {
    var leadingGroup := Node(Group, leading, DefaultModifiers);
    var trailingGroup := Node(Group, trailing, DefaultModifiers);
    [Node(Split(MakeSplitConfiguration(orientation, fraction)), [leadingGroup, trailingGroup], DefaultModifiers)]
  }

  /** A single childless node holding `w`, as `Title`, `Gauge`, `LogView`,
      `StatusBar` and `WidgetView` produce. */
  function WidgetScene(w: Widget): (r: SceneCollection)
    ensures |r| == 1 && r[0].kind == WidgetLeaf(w) && r[0].children == []
    ensures r[0].modifiers.padding == ZeroPadding
  {
    [MakeNode(WidgetLeaf(w))]
  }

  function TitleScene(text: string): (r: SceneCollection)
    ensures |r| == 1 && r[0].kind == WidgetLeaf(Title(text)) && r[0].children == []
  {
    WidgetScene(Title(text))
  }

  function GaugeScene(title: string, value: Rational): (r: SceneCollection)
    ensures |r| == 1 && r[0].kind == WidgetLeaf(Gauge(title, value)) && r[0].children == []
  {
    WidgetScene(Gauge(title, value))
  }

  /** `LogView(lines:maximumVisibleLines:)`: at least one visible line. */
  function LogViewScene(lines: seq<string>, maximumVisibleLines: int): (r: SceneCollection)
    ensures |r| == 1 && r[0].children == [] && r[0].kind.WidgetLeaf? && r[0].kind.widget.LogView?
    ensures r[0].kind.widget.lines == lines
    ensures r[0].kind.widget.maximumVisibleLines == Max(1, maximumVisibleLines) >= 1
  {
    WidgetScene(LogView(lines, Max(1, maximumVisibleLines)))
  }

  /** The line count a `LogView` shows at most when none is given. */
  const DefaultMaximumVisibleLines: int := 10

  function StatusBarScene(items: seq<string>): (r: SceneCollection)
    ensures |r| == 1 && r[0].kind == WidgetLeaf(StatusBar(items)) && r[0].children == []
  {
    WidgetScene(StatusBar(items))
  }

  /** `Screen(content:)`: one group over the content. */
  function Screen(content: SceneCollection): (r: SceneCollection)
    ensures |r| == 1 && r[0].kind == Group && r[0].children == content
    ensures r[0].modifiers.padding == ZeroPadding
  {
    [Node(Group, content, DefaultModifiers)]
  }

  /** Wrapping content in `Screen` changes nothing on screen: it draws what
      the content draws on its own. */
  lemma ScreenDrawsItsContent(content: SceneCollection, root: Rect)
    ensures SceneCommands(Screen(content), root) == SceneCommands(content, root)
  {
    SingleNodeScene(Screen(content)[0], root);
    GroupDrawsChildren(Screen(content)[0], root);
  }

  /** A split scene draws its leading content in the leading part of the
      rectangle and then its trailing content in the trailing part. */
  lemma SplitSceneDrawsBothSides(orientation: Orientation, fraction: Rational,
                                 leading: SceneCollection, trailing: SceneCollection, root: Rect)
    ensures var (l, t) := SplitRects(MakeSplitConfiguration(orientation, fraction), root);
      SceneCommands(SplitScene(orientation, fraction, leading, trailing), root) ==
        SceneCommands(leading, l) + SceneCommands(trailing, t)
  {
    var n := SplitScene(orientation, fraction, leading, trailing)[0];
    var (l, t) := SplitRects(MakeSplitConfiguration(orientation, fraction), root);
    SingleNodeScene(n, root);
    InsetZeroIsIdentity(root.size);
    assert InnerRect(n.modifiers.padding, root) == root;
    SplitIgnoresExtraChildren(n, root);
    GroupDrawsChildren(n.children[0], l);
    GroupDrawsChildren(n.children[1], t);
  }
}
