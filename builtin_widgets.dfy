/** Measuring and drawing the built-in widgets
    (Sources/SwiftCursesKit/Scene/BuiltinWidgets.swift). Each widget has a
    measure function, a function giving the commands its render pass
    appends, and a method that appends them to a buffer. */
module BuiltinWidgets {
  import opened Geometry
  import opened SceneNodes
  import opened Text
  import opened RenderBuffers

  /** Every command lies on a row of the frame, starts at its left edge,
      fits its width and carries the frame width as its limit. */
  ghost predicate WithinFrame(commands: seq<DrawCommand>, frame: Rect)
  {
    forall k :: 0 <= k < |commands| ==>
      commands[k].origin.x == frame.origin.x &&
      frame.MinY() <= commands[k].origin.y < frame.MaxY() &&
      |commands[k].text| <= frame.size.width &&
      commands[k].maxWidth == frame.size.width
  }

  // ---------------------------------------------------------------- Title

  /** TitleWidget.measure: one row; the text length held between the
      constraint's minimum and maximum, but never narrower than one cell. */
  function TitleMeasure(text: string, c: Constraints): (r: Size)
    ensures r.height == 1 && r.width >= 1
    ensures r.width <= Max(1, c.maxWidth)
    ensures c.minWidth <= |text| <= c.maxWidth && |text| >= 1 ==> r.width == |text|
    ensures c.maxWidth <= 0 ==> r.width == 1
  {
    var width := Min(c.maxWidth, Max(c.minWidth, |text|));
    MakeSize(Max(1, width), 1)
  }

  /** TitleWidget.render: nothing for an empty frame, otherwise the text cut
      to the frame width at the frame origin. */
  function TitleCommands(text: string, frame: Rect): (r: seq<DrawCommand>)
    ensures |r| <= 1
    ensures r == [] <==> frame.size.width == 0 || frame.size.height == 0 || text == []
    ensures r != [] ==>
      r[0].origin == frame.origin && r[0].text <= text &&
      |r[0].text| == Min(frame.size.width, |text|) && r[0].maxWidth == frame.size.width
  {
    if frame.size.height == 0 || frame.size.width == 0 then []
    else Written(Prefix(text, frame.size.width), frame.origin, frame.size.width)
  }

  method RenderTitle(text: string, frame: Rect, buffer: RenderBuffer)
    modifies buffer
    ensures buffer.commands == old(buffer.commands) + TitleCommands(text, frame)
  {
    if frame.size.height == 0 || frame.size.width == 0 {
      return;
    }
    buffer.Write(Prefix(text, frame.size.width), frame.origin, frame.size.width);
  }

  // ---------------------------------------------------------------- Gauge

  /** GaugeWidget.measure: twelve cells or the title, whichever is wider, and
      three rows, each raised to the minimum after being cut to the maximum. */
  function GaugeMeasure(title: string, c: Constraints): (r: Size)
    ensures r.width >= c.minWidth && r.height >= c.minHeight
    ensures c.minWidth <= Max(12, |title|) <= c.maxWidth ==> r.width == Max(12, |title|)
    ensures c.minHeight <= 3 <= c.maxHeight ==> r.height == 3
    ensures 0 <= c.minWidth <= c.maxWidth ==> r.width <= c.maxWidth
    ensures 0 <= c.minHeight <= c.maxHeight ==> r.height <= c.maxHeight
  {
    var width := Max(c.minWidth, Min(c.maxWidth, Max(12, |title|)));
    var height := Max(c.minHeight, Min(c.maxHeight, 3));
    MakeSize(width, height)
  }

  /** The bar row before it is cut to the frame: brackets around `filled`
      hashes followed by blanks up to `innerWidth` cells. */
  function GaugeBar(innerWidth: nat, progress: Fraction): (r: string)
    ensures |r| == innerWidth + 2
  {
    var filled := RoundedProduct(innerWidth, progress);
    "[" + Repeat('#', filled) + Spaces(innerWidth - filled) + "]"
  }

  /** The bar is bracketed, and exactly its first `filled` inner cells are
      hashes, where `filled` is the rounded share of the inner width. */
  lemma GaugeBarShape(innerWidth: nat, progress: Fraction)
    ensures var r := GaugeBar(innerWidth, progress);
      r[0] == '[' && r[|r| - 1] == ']' &&
      forall i :: 1 <= i <= innerWidth ==> (r[i] == '#' <==> i <= RoundedProduct(innerWidth, progress))
  {
  }

  /** The label row before padding: the rounded percentage, between 0 and
      100, followed by a percent sign. */
  function GaugeLabel(progress: Fraction): (r: string)
    ensures 0 <= RoundedProduct(100, progress) <= 100
    ensures |r| >= 2 && r[|r| - 1] == '%'
  {
    IntDescription(RoundedProduct(100, progress)) + "%"
  }

  /** What precedes the percent sign is all decimal digits, and they read
      back as the rounded percentage. */
  lemma GaugeLabelShowsPercentage(progress: Fraction)
    ensures var r := GaugeLabel(progress);
      AllDigits(r[..|r| - 1]) && DigitsValue(r[..|r| - 1]) == RoundedProduct(100, progress)
  {
    var percent := RoundedProduct(100, progress);
    DigitsOfDescription(percent);
    var r := GaugeLabel(progress);
    assert r[..|r| - 1] == NatDescription(percent);
  }

  /** GaugeWidget.render: the title row always, the bar row only when the
      frame has a second row and the label row only when it has a third. */
  function GaugeCommands(title: string, value: Rational, frame: Rect): seq<DrawCommand>
  {
    var w := frame.size.width;
    var x := frame.origin.x;
    var y := frame.origin.y;
    if w == 0 || frame.size.height == 0 then []
    else
      var progress := ClampUnit(value);
      Written(Prefix(title, w), frame.origin, w) +
      if frame.size.height > 1 then
        Written(Prefix(GaugeBar(Max(0, w as int - 2), progress), w), Point(x, y + 1), w) +
        if frame.size.height > 2 then
          Written(Prefix(PaddedTo(GaugeLabel(progress), w), w), Point(x, y + 2), w)
        else []
      else []
  }

  method RenderGauge(title: string, value: Rational, frame: Rect, buffer: RenderBuffer)
    modifies buffer
    ensures buffer.commands == old(buffer.commands) + GaugeCommands(title, value, frame)
  {
    var w := frame.size.width;
    if w == 0 || frame.size.height == 0 {
      return;
    }
    buffer.Write(Prefix(title, w), frame.origin, w);
    if frame.size.height > 1 {
      var progress := ClampUnit(value);
      var barLine := GaugeBar(Max(0, w as int - 2), progress);
      buffer.Write(Prefix(barLine, w), Point(frame.origin.x, frame.origin.y + 1), w);
      if frame.size.height > 2 {
        var padded := PaddedTo(GaugeLabel(progress), w);
        buffer.Write(Prefix(padded, w), Point(frame.origin.x, frame.origin.y + 2), w);
      }
    }
  }

  /** The gauge draws nothing in an empty frame; otherwise a title row
      unless the title is empty, then one row for each further row of the
      frame up to three, all inside the frame. */
  lemma GaugeRows(title: string, value: Rational, frame: Rect)
    ensures var r := GaugeCommands(title, value, frame);
      (frame.size.width == 0 || frame.size.height == 0 ==> r == []) &&
      (frame.size.width > 0 && frame.size.height > 0 ==>
        |r| == (if title == [] then 0 else 1) + Min(frame.size.height, 3) - 1) &&
      WithinFrame(r, frame)
  {
  }

  /** A frame at least two cells wide shows the whole bar on its second row,
      with exactly the rounded share of the inner cells filled. */
  lemma GaugeBarFillsRoundedShare(title: string, value: Rational, frame: Rect)
    requires frame.size.width >= 2 && frame.size.height >= 2
    ensures var r := GaugeCommands(title, value, frame);
      var bar := r[|r| - Min(frame.size.height, 3) + 1];
      bar.origin == Point(frame.origin.x, frame.origin.y + 1) &&
      |bar.text| == frame.size.width &&
      bar.text == GaugeBar(frame.size.width - 2, ClampUnit(value))
  {
  }

  // ---------------------------------------------------------------- LogView

  /** LogViewWidget.measure: as many rows as the maximum visible lines allows
      within the height limit, and the longest line held between the width
      constraints; at least one cell each way. */
  function LogViewMeasure(lines: seq<string>, maximumVisibleLines: int, c: Constraints): (r: Size)
    ensures r.width >= 1 && r.height >= 1
    ensures r.height <= Max(1, maximumVisibleLines) && r.height <= Max(1, c.maxHeight)
    ensures r.height == Max(1, Min(maximumVisibleLines, c.maxHeight))
    ensures r.width <= Max(1, c.maxWidth)
    ensures c.minWidth <= LongestLength(lines) <= c.maxWidth && LongestLength(lines) >= 1 ==>
      r.width == LongestLength(lines)
  {
    var visibleLines := Min(maximumVisibleLines, c.maxHeight);
    var width := Min(c.maxWidth, Max(c.minWidth, LongestLength(lines)));
    MakeSize(Max(1, width), Max(1, visibleLines))
  }

  /** The commands for `lines` drawn one per row from row `y`, each cut to
      `width` cells. */
  function LogRows(lines: seq<string>, x: int, y: int, width: nat): (r: seq<DrawCommand>)
    ensures |r| <= |lines|
  {
    if |lines| == 0 then []
    else
      LogRows(lines[..|lines| - 1], x, y, width) +
      Written(Prefix(lines[|lines| - 1], width), Point(x, y + |lines| - 1), width)
  }

  /** LogViewWidget.render: the last `frame.height` lines. */
  function LogViewCommands(lines: seq<string>, frame: Rect): (r: seq<DrawCommand>)
  {
    if frame.size.width == 0 || frame.size.height == 0 then []
    else LogRows(Suffix(lines, frame.size.height), frame.origin.x, frame.origin.y, frame.size.width)
  }

  method RenderLogView(lines: seq<string>, frame: Rect, buffer: RenderBuffer)
    modifies buffer
    ensures buffer.commands == old(buffer.commands) + LogViewCommands(lines, frame)
  {
    if frame.size.width == 0 || frame.size.height == 0 {
      return;
    }
    var visibleLines := Suffix(lines, frame.size.height);
    WriteLogRows(visibleLines, frame.origin.x, frame.origin.y, frame.size.width, buffer);
  }

  /** The loop of LogViewWidget.render: one row per line, moving down from
      row `y`. */
  method WriteLogRows(visibleLines: seq<string>, x: int, y: int, width: nat, buffer: RenderBuffer)
    modifies buffer
    ensures buffer.commands == old(buffer.commands) + LogRows(visibleLines, x, y, width)
  {
    var currentY := y;
    var i := 0;
    while i < |visibleLines|
      invariant 0 <= i <= |visibleLines|
      invariant currentY == y + i
      invariant buffer.commands == old(buffer.commands) + LogRows(visibleLines[..i], x, y, width)
    {
      buffer.Write(Prefix(visibleLines[i], width), Point(x, currentY), width);
      LogRowsExtend(visibleLines, i, x, y, width);
      currentY := currentY + 1;
      i := i + 1;
    }
    assert visibleLines[..i] == visibleLines;
  }

  lemma LogRowsExtend(lines: seq<string>, i: nat, x: int, y: int, width: nat)
    requires i < |lines|
    ensures LogRows(lines[..i + 1], x, y, width) ==
      LogRows(lines[..i], x, y, width) + Written(Prefix(lines[i], width), Point(x, y + i), width)
  {
    assert lines[..i + 1][..i] == lines[..i];
  }

  /** Each row shows, cut to the width, the line its offset from `y` names. */
  ghost predicate RowsShowLines(r: seq<DrawCommand>, lines: seq<string>, x: int, y: int, width: nat)
  {
    forall k :: 0 <= k < |r| ==>
      r[k].origin.x == x && y <= r[k].origin.y < y + |lines| &&
      r[k].text == Prefix(lines[r[k].origin.y - y], width) && r[k].maxWidth == width
  }

  ghost predicate RowsIncrease(r: seq<DrawCommand>)
  {
    forall k, l :: 0 <= k < l < |r| ==> r[k].origin.y < r[l].origin.y
  }

  /** Every log row shows one of the lines, cut to the width, on the row
      that line's position gives it. */
  lemma {:induction false} LogRowsShowLines(lines: seq<string>, x: int, y: int, width: nat)
    ensures RowsShowLines(LogRows(lines, x, y, width), lines, x, y, width)
    decreases |lines|
  {
    if |lines| > 0 {
      var front := lines[..|lines| - 1];
      LogRowsShowLines(front, x, y, width);
      var rf := LogRows(front, x, y, width);
      var last := Written(Prefix(lines[|lines| - 1], width), Point(x, y + |lines| - 1), width);
      var r := rf + last;
      assert r == LogRows(lines, x, y, width);
      forall k | 0 <= k < |r|
        ensures r[k].origin.x == x && y <= r[k].origin.y < y + |lines|
        ensures r[k].text == Prefix(lines[r[k].origin.y - y], width) && r[k].maxWidth == width
      {
        if k < |rf| {
          assert r[k] == rf[k];
          assert lines[rf[k].origin.y - y] == front[rf[k].origin.y - y];
        } else {
          assert r[k] == last[0];
        }
      }
    }
  }

  /** Log rows go strictly downwards. */
  lemma {:induction false} LogRowsIncrease(lines: seq<string>, x: int, y: int, width: nat)
    ensures RowsIncrease(LogRows(lines, x, y, width))
    decreases |lines|
  {
    if |lines| > 0 {
      var front := lines[..|lines| - 1];
      LogRowsIncrease(front, x, y, width);
      LogRowsShowLines(front, x, y, width);
      var rf := LogRows(front, x, y, width);
      var last := Written(Prefix(lines[|lines| - 1], width), Point(x, y + |lines| - 1), width);
      var r := rf + last;
      assert r == LogRows(lines, x, y, width);
      forall k, l | 0 <= k < l < |r|
        ensures r[k].origin.y < r[l].origin.y
      {
        assert r[k] == rf[k];
        if l < |rf| {
          assert r[l] == rf[l];
        } else {
          assert r[l] == last[0];
        }
      }
    }
  }

  /** When every line is non-empty and the width positive, line j lands on
      row y + j, one command per line. */
  lemma {:induction false} LogRowsOfNonEmptyLines(lines: seq<string>, x: int, y: int, width: nat)
    requires width > 0 && forall j :: 0 <= j < |lines| ==> lines[j] != []
    ensures var r := LogRows(lines, x, y, width);
      |r| == |lines| &&
      forall j :: 0 <= j < |lines| ==> r[j] == Command(Point(x, y + j), Prefix(lines[j], width), width)
    decreases |lines|
  {
    if |lines| > 0 {
      LogRowsOfNonEmptyLines(lines[..|lines| - 1], x, y, width);
    }
  }

  /** The log view shows its last lines on the frame's rows. */
  lemma LogViewWithinFrame(lines: seq<string>, frame: Rect)
    ensures WithinFrame(LogViewCommands(lines, frame), frame)
  {
    if frame.size.width > 0 && frame.size.height > 0 {
      var visible := Suffix(lines, frame.size.height);
      LogRowsShowLines(visible, frame.origin.x, frame.origin.y, frame.size.width);
    }
  }

  // ---------------------------------------------------------------- StatusBar

  /** The items joined by three blanks. */
  function StatusBarLine(items: seq<string>): string
  {
    Joined(items, "   ")
  }

  /** StatusBarWidget.measure: the full width offered, one row. */
  function StatusBarMeasure(c: Constraints): (r: Size)
    ensures r.height == 1
    ensures c.maxWidth >= 0 ==> r.width == c.maxWidth
    ensures c.maxWidth < 0 ==> r.width == 0
  {
    MakeSize(c.maxWidth, 1)
  }

  /** The status text: padded when shorter than the frame, then cut to it. */
  function StatusBarText(items: seq<string>, width: nat): (r: string)
    ensures r == PaddedTo(StatusBarLine(items), width)
  {
    var joined := StatusBarLine(items);
    var padded := if |joined| < width then PaddedTo(joined, width) else joined;
    Prefix(padded, width)
  }

  /** StatusBarWidget.render: only the width is checked, so a frame with no
      rows still gets its line. */
  function StatusBarCommands(items: seq<string>, frame: Rect): (r: seq<DrawCommand>)
    ensures frame.size.width == 0 ==> r == []
    ensures frame.size.width > 0 ==>
      |r| == 1 && r[0].origin == frame.origin &&
      |r[0].text| == frame.size.width && r[0].maxWidth == frame.size.width
  {
    if frame.size.width == 0 then []
    else Written(StatusBarText(items, frame.size.width), frame.origin, frame.size.width)
  }

  method RenderStatusBar(items: seq<string>, frame: Rect, buffer: RenderBuffer)
    modifies buffer
    ensures buffer.commands == old(buffer.commands) + StatusBarCommands(items, frame)
  {
    if frame.size.width == 0 {
      return;
    }
    var joined := StatusBarLine(items);
    var padded := joined;
    if |padded| < frame.size.width {
      padded := PaddedTo(padded, frame.size.width);
    }
    buffer.Write(Prefix(padded, frame.size.width), frame.origin, frame.size.width);
  }

  /** The status line starts with the joined items and is filled with
      blanks to exactly the frame width. */
  lemma StatusBarShowsJoinedItems(items: seq<string>, frame: Rect)
    requires frame.size.width > 0
    ensures var r := StatusBarCommands(items, frame);
      var line := StatusBarLine(items);
      var shown := Min(|line|, frame.size.width);
      r[0].text[..shown] == line[..shown] &&
      forall i :: shown <= i < frame.size.width ==> r[0].text[i] == ' '
  {
  }

  // ---------------------------------------------------------------- Fixed

  /** A widget with a fixed natural size (the recording widget of the layout
      tests): each extent raised to the minimum, then cut to the maximum. */
  function FixedMeasure(measured: Size, c: Constraints): (r: Size)
    ensures 0 <= c.minWidth <= c.maxWidth ==> c.minWidth <= r.width <= c.maxWidth
    ensures 0 <= c.minHeight <= c.maxHeight ==> c.minHeight <= r.height <= c.maxHeight
    ensures c.minWidth <= measured.width <= c.maxWidth ==> r.width == measured.width
    ensures c.minHeight <= measured.height <= c.maxHeight ==> r.height == measured.height
  {
    MakeSize(Min(c.maxWidth, Max(measured.width, c.minWidth)),
             Min(c.maxHeight, Max(measured.height, c.minHeight)))
  }

  /** Writes the whole caption at the origin of a non-empty frame. */
  function FixedCommands(caption: string, frame: Rect): (r: seq<DrawCommand>)
    ensures r == [] <==> frame.size.width == 0 || frame.size.height == 0 || caption == []
    ensures r != [] ==> r == [Command(frame.origin, caption, frame.size.width)]
  {
    if frame.size.width == 0 || frame.size.height == 0 then []
    else Written(caption, frame.origin, frame.size.width)
  }

  method RenderFixed(caption: string, frame: Rect, buffer: RenderBuffer)
    modifies buffer
    ensures buffer.commands == old(buffer.commands) + FixedCommands(caption, frame)
  {
    if frame.size.width == 0 || frame.size.height == 0 {
      return;
    }
    buffer.Write(caption, frame.origin, frame.size.width);
  }

  // ---------------------------------------------------------------- dispatch

  /** AnyWidget.measure. */
  function WidgetMeasure(w: Widget, c: Constraints): Size
  {
    match w
    case Title(text) => TitleMeasure(text, c)
    case Gauge(title, _) => GaugeMeasure(title, c)
    case LogView(lines, maximumVisibleLines) => LogViewMeasure(lines, maximumVisibleLines, c)
    case StatusBar(_) => StatusBarMeasure(c)
    case Fixed(_, measured) => FixedMeasure(measured, c)
  }

  /** AnyWidget.render. */
  function WidgetCommands(w: Widget, frame: Rect): seq<DrawCommand>
  {
    match w
    case Title(text) => TitleCommands(text, frame)
    case Gauge(title, value) => GaugeCommands(title, value, frame)
    case LogView(lines, _) => LogViewCommands(lines, frame)
    case StatusBar(items) => StatusBarCommands(items, frame)
    case Fixed(caption, _) => FixedCommands(caption, frame)
  }

  method RenderWidget(w: Widget, frame: Rect, buffer: RenderBuffer)
    modifies buffer
    ensures buffer.commands == old(buffer.commands) + WidgetCommands(w, frame)
  {
    match w
    case Title(text) => RenderTitle(text, frame, buffer);
    case Gauge(title, value) => RenderGauge(title, value, frame, buffer);
    case LogView(lines, _) => RenderLogView(lines, frame, buffer);
    case StatusBar(items) => RenderStatusBar(items, frame, buffer);
    case Fixed(caption, _) => RenderFixed(caption, frame, buffer);
  }

  /** The built-in widgets draw only inside their frame, except that the
      status bar draws on the frame's first row even when it has no rows. */
  lemma BuiltinWidgetsStayInFrame(w: Widget, frame: Rect)
    requires !w.Fixed?
    requires w.StatusBar? ==> frame.size.height > 0
    ensures WithinFrame(WidgetCommands(w, frame), frame)
  {
    if w.LogView? {
      LogViewWithinFrame(w.lines, frame);
    }
  }

  /** A status bar in a frame with no rows still draws one full-width line
      at the frame origin, on a row the frame does not cover. */
  lemma StatusBarDrawsOutsideRowlessFrame(items: seq<string>, frame: Rect)
    requires frame.size.width > 0 && frame.size.height == 0
    ensures !WithinFrame(StatusBarCommands(items, frame), frame)
  {
    var r := StatusBarCommands(items, frame);
    assert !(frame.MinY() <= r[0].origin.y < frame.MaxY());
  }

  /** The status bar with the guard the other widgets use, on the width and
      the height: a frame without rows gets nothing, any other frame the
      line `StatusBarCommands` draws. */
  function GuardedStatusBarCommands(items: seq<string>, frame: Rect): (r: seq<DrawCommand>)
    ensures frame.size.height > 0 ==> r == StatusBarCommands(items, frame)
    ensures frame.size.height == 0 ==> r == []
  {
    if frame.size.width == 0 || frame.size.height == 0 then [] else StatusBarCommands(items, frame)
  }

  /** The guarded status bar draws only inside its frame, whatever the
      frame. */
  lemma GuardedStatusBarStaysInFrame(items: seq<string>, frame: Rect)
    ensures WithinFrame(GuardedStatusBarCommands(items, frame), frame)
  {
    if frame.size.height > 0 {
      BuiltinWidgetsStayInFrame(StatusBar(items), frame);
    }
  }
}
