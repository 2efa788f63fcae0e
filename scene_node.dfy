/** The declarative scene tree: node kinds, padding modifiers and split
    configurations (Sources/SwiftCursesKit/Scene/SceneNode.swift), and the
    closed set of widgets a leaf can carry. */
module SceneNodes {
  import opened Geometry

  /** Edge insets; every side is non-negative. */
  datatype Padding = Padding(top: nat, leading: nat, bottom: nat, trailing: nat)

  const ZeroPadding: Padding := Padding(0, 0, 0, 0)

  /** LayoutPadding(top:leading:bottom:trailing:): negative sides become zero. */
  function MakePadding(top: int, leading: int, bottom: int, trailing: int): (p: Padding)
    ensures p.top == Max(0, top) && p.leading == Max(0, leading)
    ensures p.bottom == Max(0, bottom) && p.trailing == Max(0, trailing)
  {
    Padding(if top < 0 then 0 else top, if leading < 0 then 0 else leading,
            if bottom < 0 then 0 else bottom, if trailing < 0 then 0 else trailing)
  }

  /** The size left once the padding is taken off, floored at zero. */
  function Inset(p: Padding, s: Size): (r: Size)
    ensures r.width <= s.width && r.height <= s.height
    ensures r.width + p.leading + p.trailing >= s.width
    ensures r.height + p.top + p.bottom >= s.height
    ensures s.width >= p.leading + p.trailing ==> r.width + p.leading + p.trailing == s.width
    ensures s.height >= p.top + p.bottom ==> r.height + p.top + p.bottom == s.height
  {
    MakeSize(s.width - p.leading - p.trailing, s.height - p.top - p.bottom)
  }

  lemma InsetZeroIsIdentity(s: Size)
    ensures Inset(ZeroPadding, s) == s
  {
  }

  datatype Modifiers = Modifiers(padding: Padding)

  const DefaultModifiers: Modifiers := Modifiers(ZeroPadding)

  datatype StackAxis = Vertical | Horizontal

  /** A vertical split places its children side by side (it cuts the width);
      a horizontal split stacks them (it cuts the height). */
  datatype Orientation = VerticalSplit | HorizontalSplit

  /** An exact rational standing for a Swift Double. */
  datatype Ratio = Ratio(num: int, den: int)

  /** A rational with a positive denominator. */
  type Rational = r: Ratio | r.den > 0 witness Ratio(0, 1)

  /** A rational in [0, 1]. */
  type Fraction = r: Ratio | 0 <= r.num <= r.den && 0 < r.den witness Ratio(0, 1)

  /** `max(0.0, min(1.0, value))`: the value clamped into [0, 1]. */
  function ClampUnit(value: Rational): (f: Fraction)
    ensures f.den == value.den
    ensures 0 <= value.num <= value.den ==> f == value
    ensures value.num < 0 ==> f.num == 0
    ensures value.num > value.den ==> f.num == f.den
  {
    Ratio(Min(value.den, Max(0, value.num)), value.den)
  }

  /** `Int((Double(w) * f).rounded())` for a fraction f = p/q in [0, 1]: the
      integer nearest to w*p/q, halves rounded up (away from zero, as the
      product is never negative). */
  function RoundedProduct(w: nat, f: Fraction): (r: nat)
    ensures r <= w
  {
    RoundedProductIsNearest(w, f);
    (2 * w * f.num + f.den) / (2 * f.den)
  }

  /** The rounded product is the nearest integer, halves going up:
      r - 1/2 <= w*p/q < r + 1/2. */
  lemma RoundedProductIsNearest(w: nat, f: Fraction)
    ensures var r := (2 * w * f.num + f.den) / (2 * f.den);
      0 <= r <= w && 2 * f.den * r <= 2 * w * f.num + f.den < 2 * f.den * (r + 1)
  {
    var q := 2 * f.den;
    var a := 2 * w * f.num + f.den;
    QuotientBounds(a, q);
    ProductBound(w, f);
  }

  lemma QuotientBounds(a: nat, q: nat)
    requires q > 0
    ensures q * (a / q) <= a < q * (a / q + 1)
  {
  }

  /** w*p/q + 1/2 stays below w + 1 when p <= q. */
  lemma ProductBound(w: nat, f: Fraction)
    ensures 2 * w * f.num + f.den < 2 * f.den * (w + 1)
    ensures forall r: int :: 2 * f.den * r <= 2 * w * f.num + f.den ==> r <= w
  {
    assert w * f.num <= w * f.den by {
      MultiplyMonotone(w, f.num, f.den);
    }
    forall r: int | 2 * f.den * r <= 2 * w * f.num + f.den
      ensures r <= w
    {
      if r > w {
        MultiplyMonotone(2 * f.den, w + 1, r);
      }
    }
  }

  lemma MultiplyMonotone(k: nat, a: int, b: int)
    requires a <= b
    ensures k * a <= k * b
  {
  }

  datatype SplitConfiguration = SplitConfiguration(orientation: Orientation, fraction: Fraction)

  /** SplitConfiguration(orientation:fraction:) clamps the fraction into [0, 1]. */
  function MakeSplitConfiguration(orientation: Orientation, fraction: Rational): (c: SplitConfiguration)
    ensures c.orientation == orientation && c.fraction == ClampUnit(fraction)
  {
    SplitConfiguration(orientation, ClampUnit(fraction))
  }

  /** The widgets a scene leaf can hold. `Fixed` is a widget that reports a
      fixed natural size and writes a single caption, as custom widgets
      wrapped by WidgetView do. */
  datatype Widget =
    | Title(text: string)
    | Gauge(title: string, value: Rational)
    | LogView(lines: seq<string>, maximumVisibleLines: int)
    | StatusBar(items: seq<string>)
    | Fixed(caption: string, measured: Size)

  datatype Kind =
    | Group
    | Stack(axis: StackAxis, spacing: int)
    | Split(configuration: SplitConfiguration)
    | WidgetLeaf(widget: Widget)

  datatype Node = Node(kind: Kind, children: seq<Node>, modifiers: Modifiers)

  /** SceneNode(kind:) with the default children and modifiers. */
  function MakeNode(kind: Kind): (n: Node)
    ensures n.kind == kind && n.children == [] && n.modifiers.padding == ZeroPadding
  {
    Node(kind, [], DefaultModifiers)
  }
}
