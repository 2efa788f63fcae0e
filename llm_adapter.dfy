/** The layout policy of the LLM adapter
    (codex-whitespace-tui/adapter/Swift/LLMAdapter.swift): the components a
    layout generator proposes are clamped to the terminal, and a fixed
    two-component layout stands in when it has nothing usable. The HTTP
    request and the JSON coding are not part of this model. */
module LLMAdapter {
  import opened Wrappers
  import opened Geometry

  /** The JSON values a component's properties can hold. */
  datatype Json = JBool(b: bool) | JInt(i: int) | JString(s: string) | JObject(fields: map<string, Json>) | JArray(items: seq<Json>)

  /** A placed component. */
  datatype Component = Component(id: string, kind: string, x: int, y: int, width: int, height: int, props: Option<map<string, Json>>)

  /** The narrowest terminal on which the inspector rail is kept. */
  const RailColumns: int := 120

  /** The clamping of one component: its origin inside the terminal, its
      width at least 10 and its height at least 1. */
  function Clamp(c: Component, rows: int, cols: int): (r: Component)
    ensures r.id == c.id && r.kind == c.kind && r.props == c.props
    ensures 0 <= r.x <= Max(0, cols - 1) && 0 <= r.y <= Max(0, rows - 1)
    ensures r.width == Max(10, Min(c.width, cols - r.x)) && r.width >= 10
    ensures r.height == Max(1, Min(c.height, rows - r.y)) && r.height >= 1
  {
    var cx := Max(0, Min(c.x, cols - 1));
    var cy := Max(0, Min(c.y, rows - 1));
    Component(c.id, c.kind, cx, cy, Max(10, Min(c.width, cols - cx)), Max(1, Min(c.height, rows - cy)), c.props)
  }

  /** Whether the rail policy drops a component. */
  predicate Dropped(c: Component, cols: int)
  {
    c.kind == "Inspector" && cols < RailColumns
  }

  /** `enforcePolicy(_:rows:cols:)`: each component clamped, inspectors
      dropped on narrow terminals, the order kept. */
  function EnforcePolicy(comps: seq<Component>, rows: int, cols: int): (r: seq<Component>)
    ensures |r| <= |comps|
  {
    if |comps| == 0 then []
    else if Dropped(comps[0], cols) then EnforcePolicy(comps[1..], rows, cols)
    else [Clamp(comps[0], rows, cols)] + EnforcePolicy(comps[1..], rows, cols)
  }

  /** The kept components, in order, before clamping. */
  function Kept(comps: seq<Component>, cols: int): (r: seq<Component>)
  {
    if |comps| == 0 then []
    else if Dropped(comps[0], cols) then Kept(comps[1..], cols)
    else [comps[0]] + Kept(comps[1..], cols)
  }

  /** The policy's output is exactly the kept components, in their order,
      each clamped: none is added and none reordered. */
  lemma {:induction false} EnforcePolicyIsClampedKept(comps: seq<Component>, rows: int, cols: int)
    ensures |EnforcePolicy(comps, rows, cols)| == |Kept(comps, cols)|
    ensures forall i :: 0 <= i < |Kept(comps, cols)| ==>
      EnforcePolicy(comps, rows, cols)[i] == Clamp(Kept(comps, cols)[i], rows, cols)
    decreases |comps|
  {
    if |comps| > 0 {
      EnforcePolicyIsClampedKept(comps[1..], rows, cols);
    }
  }

  /** The kept components come from the input, and an inspector is kept
      only on a terminal at least as wide as the rail. */
  lemma {:induction false} KeptComeFromInput(comps: seq<Component>, cols: int)
    ensures forall c <- Kept(comps, cols) :: c in comps && !Dropped(c, cols)
    decreases |comps|
  {
    if |comps| > 0 {
      KeptComeFromInput(comps[1..], cols);
      forall c <- Kept(comps, cols)
        ensures c in comps
      {
        if c != comps[0] {
          assert c in Kept(comps[1..], cols);
        }
      }
    }
  }

  /** On a terminal at least as wide as the rail, nothing is dropped. */
  lemma {:induction false} WideTerminalKeepsAll(comps: seq<Component>, cols: int)
    requires cols >= RailColumns
    ensures Kept(comps, cols) == comps
    decreases |comps|
  {
    if |comps| > 0 {
      WideTerminalKeepsAll(comps[1..], cols);
      assert comps == [comps[0]] + comps[1..];
    }
  }

  /** The output keeps everything that is not an inspector. */
  lemma {:induction false} NonInspectorsKept(comps: seq<Component>, cols: int)
    requires forall c <- comps :: c.kind != "Inspector"
    ensures Kept(comps, cols) == comps
    decreases |comps|
  {
    if |comps| > 0 {
      NonInspectorsKept(comps[1..], cols);
      assert comps == [comps[0]] + comps[1..];
    }
  }

  /** `fallbackLayout(rows:cols:reason:)`: a heading and an info card at
      column 2, both `min(76, cols - 4)` wide, which is negative on a
      terminal narrower than 4 columns. */
  function FallbackLayout(rows: int, cols: int, reason: Option<string>): (r: seq<Component>)
    ensures |r| == 2 && r[0].id == "heading" && r[1].id == "card_info"
    ensures r[0].x == 2 && r[1].x == 2 && r[0].y == 1 && r[1].y == 3
    ensures r[0].width == Min(76, cols - 4) && r[1].width == Min(76, cols - 4)
    ensures r[0].height == 1 && r[1].height == 6
  {
    var width := Min(76, cols - 4);
    var why := match reason case Some(text) => text case None => "-";
    [Component("heading", "Heading", 2, 1, width, 1,
       Some(map["text" := JString("Fallback layout"),
                "style" := JObject(map["bold" := JBool(true), "color_pair" := JInt(2)])])),
     Component("card_info", "Card", 2, 3, width, 6,
       Some(map["title" := JString("Info"),
                "items" := JArray([JObject(map["label" := JString("status"), "value" := JString("fallback")]),
                                   JObject(map["label" := JString("reason"), "value" := JString(why)])])]))]
  }
}
