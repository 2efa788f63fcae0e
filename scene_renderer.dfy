/** The render pass of the scene renderer
    (Sources/SwiftCursesKit/Scene/SceneRenderer.swift, `render`): lay the
    scene out in the root window's rectangle, then clear the window, draw
    every command that starts on screen, stage and commit. The curses calls
    are recorded as a trace; which of them fails is a parameter. */
module SceneRendering {
  import opened Wrappers
  import opened Geometry
  import opened SceneNodes
  import opened Text
  import opened RenderBuffers
  import opened SceneLayout

  /** The window calls the flush makes, in the order it makes them. */
  datatype DriverCall = Clear | Draw(text: string, y: int, x: int) | Stage | Commit

  /** A curses call that threw, with its position in the call trace. */
  datatype RenderFailure = CallFailed(position: nat, call: DriverCall)

  /** The root rectangle: the window size with negative extents raised to
      zero, at the origin. */
  function RootRect(columns: int, rows: int): (r: Rect)
    ensures r.origin == Point(0, 0)
    ensures r.size.width == Max(0, columns) && r.size.height == Max(0, rows)
  {
    Rect(Point(0, 0), MakeSize(Max(0, columns), Max(0, rows)))
  }

  /** A command is drawn only when its origin lies on screen. */
  predicate OnScreen(c: DrawCommand, screen: Size)
  {
    0 <= c.origin.x < screen.width && 0 <= c.origin.y < screen.height
  }

  /** The draw call for one command: dropped when its origin is negative or
      off screen, otherwise its text cut to the width it may use (its own
      maximum or the rest of the row, whichever is less) and padded with
      spaces to exactly that width. */
  function DrawFor(c: DrawCommand, screen: Size): (r: Option<DriverCall>)
    ensures r.Some? <==> OnScreen(c, screen)
    ensures r.Some? ==> r.value.Draw? && r.value.y == c.origin.y && r.value.x == c.origin.x
  {
    if c.origin.x < 0 || c.origin.y < 0 then None
    else if c.origin.y >= screen.height || c.origin.x >= screen.width then None
    else
      var available := Min(c.maxWidth, screen.width - c.origin.x);
      if available <= 0 then None
      else Some(Draw(PaddedTo(Prefix(c.text, available), available), c.origin.y, c.origin.x))
  }

  /** What one visible command puts on screen: exactly as many cells as it
      may use, starting with as much of its text as fits, the rest blanks. */
  lemma DrawnText(c: DrawCommand, screen: Size)
    requires OnScreen(c, screen)
    ensures var call := DrawFor(c, screen).value;
      var width := Min(c.maxWidth, screen.width - c.origin.x);
      var shown := Min(|c.text|, width);
      |call.text| == width && 0 < width && c.origin.x + width <= screen.width &&
      call.text[..shown] == c.text[..shown] &&
      (forall i :: shown <= i < width ==> call.text[i] == ' ')
  {
  }

  /** The draw calls for a sequence of commands, in order. */
  function Draws(commands: seq<DrawCommand>, screen: Size): (r: seq<DriverCall>)
  {
    if |commands| == 0 then []
    else
      var last := commands[|commands| - 1];
      Draws(commands[..|commands| - 1], screen) +
      (match DrawFor(last, screen) case None => [] case Some(call) => [call])
  }

  lemma {:induction false} DrawsAppend(a: seq<DrawCommand>, b: seq<DrawCommand>, screen: Size)
    ensures Draws(a + b, screen) == Draws(a, screen) + Draws(b, screen)
    decreases |b|
  {
    if |b| == 0 {
      assert a + b == a;
    } else {
      assert (a + b)[..|a + b| - 1] == a + b[..|b| - 1];
      DrawsAppend(a, b[..|b| - 1], screen);
    }
  }

  /** Every draw call lies on screen, starts a row of the window and fills
      at least one cell without running past the right edge; there is at
      most one per command. */
  lemma {:induction false} DrawsStayOnScreen(commands: seq<DrawCommand>, screen: Size)
    ensures |Draws(commands, screen)| <= |commands|
    ensures forall call <- Draws(commands, screen) ::
      call.Draw? && 0 <= call.y < screen.height && 0 <= call.x &&
      0 < |call.text| && call.x + |call.text| <= screen.width
    decreases |commands|
  {
    if |commands| > 0 {
      var last := commands[|commands| - 1];
      DrawsStayOnScreen(commands[..|commands| - 1], screen);
      if OnScreen(last, screen) {
        DrawnText(last, screen);
      }
    }
  }

  /** Commands that all start off screen draw nothing. */
  lemma {:induction false} OffScreenDrawsNothing(commands: seq<DrawCommand>, screen: Size)
    requires forall i :: 0 <= i < |commands| ==> !OnScreen(commands[i], screen)
    ensures Draws(commands, screen) == []
    decreases |commands|
  {
    if |commands| > 0 {
      OffScreenDrawsNothing(commands[..|commands| - 1], screen);
    }
  }

  /** The calls of a whole flush: clear, the draws, stage, commit. */
  function FlushCalls(commands: seq<DrawCommand>, screen: Size): (r: seq<DriverCall>)
    ensures |r| == |Draws(commands, screen)| + 3
  {
    [Clear] + Draws(commands, screen) + [Stage, Commit]
  }

  /** The flush clears once and first, and stages and commits once and last;
      everything between is a draw. */
  lemma FlushFrame(commands: seq<DrawCommand>, screen: Size)
    ensures var calls := FlushCalls(commands, screen);
      calls[0] == Clear && calls[|calls| - 2] == Stage && calls[|calls| - 1] == Commit &&
      forall i :: 0 < i < |calls| - 2 ==> calls[i].Draw?
  {
    DrawsStayOnScreen(commands, screen);
    var calls := FlushCalls(commands, screen);
    var draws := Draws(commands, screen);
    forall i | 0 < i < |calls| - 2
      ensures calls[i].Draw?
    {
      assert calls[i] == draws[i - 1];
    }
  }

  /** Every call a render of `nodes` on a `columns` by `rows` window makes
      when none of them fails. */
  function RenderCalls(nodes: seq<Node>, columns: int, rows: int): seq<DriverCall>
  {
    var root := RootRect(columns, rows);
    FlushCalls(SceneCommands(nodes, root), root.size)
  }

  /** The calls actually made when the plan's calls are made in order and
      the one at position `failAt`, if there is one, throws and ends the
      pass with its error. */
  predicate Traced(plan: seq<DriverCall>, failAt: Option<nat>, calls: seq<DriverCall>, outcome: Outcome<RenderFailure>)
  {
    if failAt.Some? && failAt.value < |plan| then
      calls == plan[..failAt.value + 1] && outcome == Fail(CallFailed(failAt.value, plan[failAt.value]))
    else
      calls == plan && outcome == Pass
  }

  /** The call at `failAt` threw: the trace is the plan up to it. */
  lemma TracedFailure(plan: seq<DriverCall>, failAt: Option<nat>, calls: seq<DriverCall>)
    requires 0 < |calls| <= |plan| && plan[..|calls|] == calls && failAt == Some(|calls| - 1)
    ensures Traced(plan, failAt, calls, Fail(CallFailed(|calls| - 1, calls[|calls| - 1])))
  {
  }

  /** The flush loop of `render(scene:on:)` over the buffer's commands. */
  method Flush(commands: seq<DrawCommand>, screen: Size, failAt: Option<nat>)
    returns (calls: seq<DriverCall>, outcome: Outcome<RenderFailure>)
    ensures Traced(FlushCalls(commands, screen), failAt, calls, outcome)
  {
    ghost var plan := FlushCalls(commands, screen);
    calls := [Clear];
    if failAt == Some(0) {
      TracedFailure(plan, failAt, calls);
      return calls, Fail(CallFailed(0, Clear));
    }
    var i := 0;
    while i < |commands|
      invariant 0 <= i <= |commands|
      invariant calls == [Clear] + Draws(commands[..i], screen)
      invariant failAt.Some? ==> failAt.value >= |calls|
    {
      var call := DrawFor(commands[i], screen);
      DrawsStep(commands, i, screen);
      if call.Some? {
        calls := calls + [call.value];
        assert calls == [Clear] + Draws(commands[..i + 1], screen);
        if failAt == Some(|calls| - 1) {
          DrawFailureTraced(commands, i + 1, screen, failAt, calls);
          return calls, Fail(CallFailed(|calls| - 1, call.value));
        }
      }
      i := i + 1;
    }
    PlanStartsWithDraws(commands, i, screen);
    assert commands[i..] == [];
    calls := calls + [Stage];
    if failAt == Some(|calls| - 1) {
      TracedFailure(plan, failAt, calls);
      return calls, Fail(CallFailed(|calls| - 1, Stage));
    }
    calls := calls + [Commit];
    assert calls == plan;
    if failAt == Some(|calls| - 1) {
      TracedFailure(plan, failAt, calls);
      return calls, Fail(CallFailed(|calls| - 1, Commit));
    }
    outcome := Pass;
  }

  lemma DrawsStep(commands: seq<DrawCommand>, i: nat, screen: Size)
    requires i < |commands|
    ensures Draws(commands[..i + 1], screen) == Draws(commands[..i], screen) +
      (match DrawFor(commands[i], screen) case None => [] case Some(call) => [call])
  {
    assert commands[..i + 1][..i] == commands[..i];
  }

  /** The calls made for the first `i` commands open the whole flush. */
  lemma PlanStartsWithDraws(commands: seq<DrawCommand>, i: nat, screen: Size)
    requires i <= |commands|
    ensures FlushCalls(commands, screen) ==
      [Clear] + Draws(commands[..i], screen) + Draws(commands[i..], screen) + [Stage, Commit]
  {
    DrawsAppend(commands[..i], commands[i..], screen);
    assert commands[..i] + commands[i..] == commands;
  }

  /** The calls made for the first `i` commands are a prefix of the flush. */
  lemma OpeningIsPrefix(commands: seq<DrawCommand>, i: nat, screen: Size)
    requires i <= |commands|
    ensures var opening := [Clear] + Draws(commands[..i], screen);
      |opening| <= |FlushCalls(commands, screen)| && FlushCalls(commands, screen)[..|opening|] == opening
  {
    PlanStartsWithDraws(commands, i, screen);
    var opening := [Clear] + Draws(commands[..i], screen);
    var rest := Draws(commands[i..], screen) + [Stage, Commit];
    assert FlushCalls(commands, screen) == opening + rest;
  }

  /** A draw that throws ends the flush after the calls made so far. */
  lemma DrawFailureTraced(commands: seq<DrawCommand>, i: nat, screen: Size, failAt: Option<nat>, calls: seq<DriverCall>)
    requires i <= |commands|
    requires calls == [Clear] + Draws(commands[..i], screen) && failAt == Some(|calls| - 1)
    ensures Traced(FlushCalls(commands, screen), failAt, calls, Fail(CallFailed(|calls| - 1, calls[|calls| - 1])))
  {
    OpeningIsPrefix(commands, i, screen);
    TracedFailure(FlushCalls(commands, screen), failAt, calls);
  }

  /** `render(scene:on:)`: with no root window descriptor nothing happens;
      otherwise the scene is laid out in the root rectangle and flushed. */
  method Render(nodes: seq<Node>, hasDescriptor: bool, columns: int, rows: int, failAt: Option<nat>)
    returns (calls: seq<DriverCall>, outcome: Outcome<RenderFailure>)
    ensures !hasDescriptor ==> calls == [] && outcome == Pass
    ensures hasDescriptor ==> Traced(RenderCalls(nodes, columns, rows), failAt, calls, outcome)
  {
    if !hasDescriptor {
      return [], Pass;
    }
    var root := RootRect(columns, rows);
    var buffer := LayoutScene(nodes, root);
    calls, outcome := Flush(buffer.commands, root.size, failAt);
  }
}
