/** Composing scenes: a scene is the list of nodes it makes, and the result
    builder concatenates those lists (Sources/SwiftCursesKit/Scene/SceneBuilder.swift). */
module SceneBuilder {
  import opened Wrappers
  import opened Geometry
  import opened SceneNodes

  /** `SceneCollection`: the nodes of a composed scene, in order. */
  type SceneCollection = seq<Node>

  /** All the lists of `parts`, one after another (`flatMap`). */
  function Flatten(parts: seq<seq<Node>>): (r: seq<Node>)
  {
    if |parts| == 0 then [] else Flatten(parts[..|parts| - 1]) + parts[|parts| - 1]
  }

  lemma {:induction false} FlattenAppend(a: seq<seq<Node>>, b: seq<seq<Node>>)
    ensures Flatten(a + b) == Flatten(a) + Flatten(b)
    decreases |b|
  {
    if |b| == 0 {
      assert a + b == a;
    } else {
      var front := b[..|b| - 1];
      assert (a + b)[..|a + b| - 1] == a + front;
      FlattenAppend(a, front);
    }
  }

  /** A node of the flattened list is a node of one part, and the parts'
      lengths add up. */
  lemma {:induction false} FlattenLength(parts: seq<seq<Node>>)
    ensures |Flatten(parts)| == SumLengths(parts)
    decreases |parts|
  {
    if |parts| > 0 {
      FlattenLength(parts[..|parts| - 1]);
    }
  }

  function SumLengths(parts: seq<seq<Node>>): nat
  {
    if |parts| == 0 then 0 else SumLengths(parts[..|parts| - 1]) + |parts[|parts| - 1]|
  }

  /** `buildBlock`: every component's nodes, in argument order. */
  function BuildBlock(components: seq<SceneCollection>): (r: SceneCollection)
    ensures |components| == 0 ==> r == []
    ensures |components| > 0 ==>
      r == BuildBlock(components[..|components| - 1]) + components[|components| - 1]
  {
    Flatten(components)
  }

  /** Two blocks in sequence build the same list as one block over both. */
  lemma BuildBlockSplits(a: seq<SceneCollection>, b: seq<SceneCollection>)
    ensures BuildBlock(a + b) == BuildBlock(a) + BuildBlock(b)
  {
    FlattenAppend(a, b);
  }

  /** `buildOptional`: an absent component builds nothing. */
  function BuildOptional(component: Option<SceneCollection>): (r: SceneCollection)
    ensures component.None? ==> r == []
    ensures component.Some? ==> r == component.value
  {
    match component
    case None => []
    case Some(nodes) => nodes
  }

  /** `buildEither(first:)` and `buildEither(second:)` keep the chosen branch. */
  function BuildEither(component: SceneCollection): (r: SceneCollection)
    ensures r == component
  {
    component
  }

  /** A branch chosen inside a block contributes exactly its own nodes, at
      its own place among the other components. */
  lemma EitherInBlock(before: seq<SceneCollection>, chosen: SceneCollection, after: seq<SceneCollection>)
    ensures BuildBlock(before + [BuildEither(chosen)] + after) == BuildBlock(before) + chosen + BuildBlock(after)
  {
    var single := [BuildEither(chosen)];
    BuildBlockSplits(before + single, after);
    BuildBlockSplits(before, single);
    assert single[..0] == [];
  }

  /** `buildArray`: the collections flattened in order, the same list a
      block over them builds. */
  function BuildArray(components: seq<SceneCollection>): (r: SceneCollection)
    ensures |r| == SumLengths(components)
    ensures r == BuildBlock(components)
  {
    FlattenLength(components);
    Flatten(components)
  }

  /** `buildExpression` of a node, `SingleScene`, and a node used as a scene:
      exactly that node. */
  function SingleScene(node: Node): (r: SceneCollection)
    ensures |r| == 1 && r[0] == node
  {
    [node]
  }

  /** The node with `extra` added side by side to its padding. */
  function WithExtraPadding(node: Node, extra: Padding): (r: Node)
    ensures r.kind == node.kind && r.children == node.children
    ensures r.modifiers.padding.top == node.modifiers.padding.top + extra.top
    ensures r.modifiers.padding.leading == node.modifiers.padding.leading + extra.leading
    ensures r.modifiers.padding.bottom == node.modifiers.padding.bottom + extra.bottom
    ensures r.modifiers.padding.trailing == node.modifiers.padding.trailing + extra.trailing
  {
    var e := node.modifiers.padding;
    node.(modifiers := node.modifiers.(padding := MakePadding(
      e.top + extra.top, e.leading + extra.leading, e.bottom + extra.bottom, e.trailing + extra.trailing)))
  }

  /** `padding(_ padding:)` on a scene: every top-level node gets the extra
      padding; count, order, kinds and children are kept. */
  function AddPadding(nodes: SceneCollection, extra: Padding): (r: SceneCollection)
    ensures |r| == |nodes|
    ensures forall i :: 0 <= i < |nodes| ==> r[i] == WithExtraPadding(nodes[i], extra)
  {
    seq(|nodes|, i requires 0 <= i < |nodes| => WithExtraPadding(nodes[i], extra))
  }

  /** `padding(_ value:)`: the same amount, floored at zero, added to all
      four sides of every top-level node; nothing else changes. */
  function AddUniformPadding(nodes: SceneCollection, value: int): (r: SceneCollection)
    ensures |r| == |nodes|
    ensures forall i :: 0 <= i < |nodes| ==>
      r[i].kind == nodes[i].kind && r[i].children == nodes[i].children &&
      r[i].modifiers == nodes[i].modifiers.(padding := r[i].modifiers.padding)
    ensures forall i :: 0 <= i < |nodes| ==>
      var p, q := r[i].modifiers.padding, nodes[i].modifiers.padding;
      p.top == q.top + Max(0, value) && p.leading == q.leading + Max(0, value) &&
      p.bottom == q.bottom + Max(0, value) && p.trailing == q.trailing + Max(0, value)
  {
    AddPadding(nodes, MakePadding(value, value, value, value))
  }

  function SumPadding(a: Padding, b: Padding): Padding
  {
    Padding(a.top + b.top, a.leading + b.leading, a.bottom + b.bottom, a.trailing + b.trailing)
  }

  /** Padding twice is padding once by the side-by-side sum. */
  lemma AddPaddingTwice(nodes: SceneCollection, a: Padding, b: Padding)
    ensures AddPadding(AddPadding(nodes, a), b) == AddPadding(nodes, SumPadding(a, b))
  {
  }

  /** Uniform padding by `a` and then `b`, both non-negative, is uniform
      padding by `a + b`. */
  lemma AddUniformPaddingTwice(nodes: SceneCollection, a: int, b: int)
    requires a >= 0 && b >= 0
    ensures AddUniformPadding(AddUniformPadding(nodes, a), b) == AddUniformPadding(nodes, a + b)
  {
    AddPaddingTwice(nodes, MakePadding(a, a, a, a), MakePadding(b, b, b, b));
  }

  /** A negative uniform padding is clamped to zero and changes nothing. */
  lemma AddUniformPaddingNonPositive(nodes: SceneCollection, value: int)
    requires value <= 0
    ensures AddUniformPadding(nodes, value) == nodes
  {
  }
}
