/** Draw commands and the buffer a render pass collects them in
    (Sources/SwiftCursesKit/Scene/RenderBuffer.swift). */
module RenderBuffers {
  import opened Geometry

  datatype Command = Command(origin: Point, text: string, maxWidth: int)

  /** A command the buffer can hold: a positive width and some text. */
  type DrawCommand = c: Command | c.maxWidth > 0 && |c.text| > 0
    witness Command(Point(0, 0), " ", 1)

  /** What one `write` appends: nothing for a non-positive width or an empty
      text, otherwise exactly the command carrying the arguments. */
  function Written(text: string, origin: Point, maxWidth: int): (r: seq<DrawCommand>)
    ensures |r| <= 1
    ensures r == [] <==> maxWidth <= 0 || text == []
    ensures r != [] ==> r[0].origin == origin && r[0].text == text && r[0].maxWidth == maxWidth
  {
    if maxWidth <= 0 || text == [] then [] else [Command(origin, text, maxWidth)]
  }

  /** The commands collected during one render pass. Every stored command
      has a positive width and non-empty text by its type. */
  class RenderBuffer {
    var commands: seq<DrawCommand>

    constructor ()
      ensures commands == []
    {
      commands := [];
    }

    /** Appends one command, or leaves the buffer unchanged when the width
        is not positive or the text is empty; earlier commands keep their
        place. */
    method Write(text: string, origin: Point, maxWidth: int)
      modifies this
      ensures commands == old(commands) + Written(text, origin, maxWidth)
      ensures old(commands) <= commands
    {
      if maxWidth <= 0 || text == [] {
        return;
      }
      commands := commands + [Command(origin, text, maxWidth)];
    }
  }
}
