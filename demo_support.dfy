/** What the two example applications share in shape: fixed-width text
    helpers, the bounded event log, the command-line parser and the
    configuration clamping (Examples/OperationsDemo/OperationsDemoApp.swift
    and Examples/DashboardDemo/DashboardDemoApp.swift define each of these
    separately, with the same code). */
module DemoSupport {
  import opened Wrappers
  import opened Geometry
  import opened Text

  // ---------------------------------------------------------------- text

  /** `truncated(_:width:)`: empty for a width that is not positive,
      otherwise exactly `width` characters, cut or padded with spaces. */
  function Truncated(text: string, width: int): (r: string)
    ensures width <= 0 ==> r == ""
    ensures width > 0 ==> |r| == width
    ensures width > 0 && |text| >= width ==> r == text[..width]
    ensures width > 0 && |text| < width ==>
      r[..|text|] == text && forall i :: |text| <= i < width ==> r[i] == ' '
  {
    if width <= 0 then "" else PaddedTo(text, width)
  }

  /** `centered(_:width:)`: a text narrower than the width gets half the
      slack (rounded down) in spaces on the left and the rest on the right;
      a wider one is truncated. */
  function Centered(text: string, width: int): (r: string)
    ensures |text| >= width ==> r == Truncated(text, width)
    ensures width > 0 ==> |r| == width
  {
    if |text| >= width then Truncated(text, width)
    else
      var remaining := width - |text|;
      var leading := remaining / 2;
      Spaces(leading) + text + Spaces(remaining - leading)
  }

  /** Where a centred text lands: after ⌊slack/2⌋ spaces, with the
      remaining spaces after it. */
  lemma CenteredPlacement(text: string, width: int)
    requires |text| < width
    ensures var leading := (width - |text|) / 2;
      Centered(text, width)[..leading] == Spaces(leading) &&
      Centered(text, width)[leading..leading + |text|] == text &&
      forall i :: leading + |text| <= i < width ==> Centered(text, width)[i] == ' '
  {
    var leading := (width - |text|) / 2;
    var r := Centered(text, width);
    assert r == Spaces(leading) + text + Spaces(width - |text| - leading);
    assert r[..leading] == Spaces(leading);
    assert r[leading..leading + |text|] == text;
  }

  // ---------------------------------------------------------------- event log

  /** The capacity of a log shown `limit` lines at a time. */
  function LogCapacity(limit: int): (r: nat)
    ensures r >= 30 && r >= 3 * limit
  {
    Max(limit, 10) * 3
  }

  /** The trimming of `trimEventLog()` / `appendLog(_:)`: the oldest
      entries are dropped until the capacity is met. */
  function TrimToRecent(log: seq<string>, limit: int): (r: seq<string>)
    ensures |r| == Min(|log|, LogCapacity(limit))
    ensures r == log[|log| - |r|..]
  {
    var capacity := LogCapacity(limit);
    if |log| > capacity then log[|log| - capacity..] else log
  }

  /** Appending and trimming keeps the newest entries in order: the new
      ones last, preceded by as many of the old ones as fit. */
  lemma {:induction false} AppendKeepsNewest(log: seq<string>, added: seq<string>, limit: int)
    requires |added| <= LogCapacity(limit)
    ensures TrimToRecent(log + added, limit) ==
      log[|log| - Min(|log|, LogCapacity(limit) - |added|)..] + added
  {
    var all := log + added;
    var r := TrimToRecent(all, limit);
    var kept := Min(|log|, LogCapacity(limit) - |added|);
    assert |r| == kept + |added|;
    assert r == all[|all| - |r|..];
    assert all[|all| - |r|..] == log[|log| - kept..] + added by {
      assert all[|log|..] == added;
    }
  }

  /** `visibleEvents` / `visibleLogs`: the last `limit` entries. */
  function Visible(log: seq<string>, limit: int): (r: seq<string>)
    requires limit >= 1
    ensures |r| == Min(limit, |log|) && r == log[|log| - |r|..]
  {
    var n := Min(limit, |log|);
    log[|log| - n..]
  }

  // ---------------------------------------------------------------- configuration

  /** The demos' configuration: the number of ticks before quitting, the
      number of log lines shown, and whether to print a preview. */
  datatype DemoConfiguration = DemoConfiguration(maximumTicks: int, lines: int, shouldPrintPreview: bool)

  /** The configuration initialiser: both counts are at least 1. */
  function MakeConfiguration(maximumTicks: int, lines: int, shouldPrintPreview: bool): (r: DemoConfiguration)
    ensures r.maximumTicks == Max(1, maximumTicks) && r.lines == Max(1, lines)
    ensures r.shouldPrintPreview == shouldPrintPreview
  {
    DemoConfiguration(Max(1, maximumTicks), Max(1, lines), shouldPrintPreview)
  }

  // ---------------------------------------------------------------- parsing

  const Int64Min: int := -0x8000_0000_0000_0000
  const Int64Max: int := 0x7FFF_FFFF_FFFF_FFFF

  /** Swift's `Int(_:)` on a string: an optional sign and at least one
      decimal digit, and a value that fits in 64 bits. */
  function ParseInt(s: string): (r: Option<int>)
    ensures r.Some? ==> Int64Min <= r.value <= Int64Max
    ensures |s| == 0 ==> r.None?
  {
    var negative := |s| > 0 && s[0] == '-';
    var digits := if |s| > 0 && (s[0] == '-' || s[0] == '+') then s[1..] else s;
    if |digits| == 0 || !AllDigits(digits) then None
    else
      var magnitude: int := DigitsValue(digits);
      var value: int := if negative then -magnitude else magnitude;
      if Int64Min <= value <= Int64Max then Some(value) else None
  }

  /** Reading back a printed number gives the number (within 64 bits). */
  lemma ParseIntReadsDescription(n: int)
    requires Int64Min <= n <= Int64Max
    ensures ParseInt(IntDescription(n)) == Some(n)
  {
    var magnitude := if n < 0 then -n else n;
    var digits := NatDescription(magnitude);
    DigitsOfDescription(magnitude);
    ParseIntOfDigits(n < 0, digits, magnitude);
  }

  /** A run of digits, with a minus sign when negative, parses as its value. */
  lemma ParseIntOfDigits(negative: bool, digits: string, magnitude: nat)
    requires |digits| >= 1 && AllDigits(digits) && DigitsValue(digits) == magnitude
    requires Int64Min <= (if negative then -(magnitude as int) else magnitude as int) <= Int64Max
    ensures ParseInt(if negative then "-" + digits else digits) == Some(if negative then -(magnitude as int) else magnitude as int)
  {
    var s := if negative then "-" + digits else digits;
    if negative {
      assert s[0] == '-' && s[1..] == digits;
    } else {
      assert IsDigit(s[0]);
    }
  }

  /** What the command line asks for. */
  datatype Arguments = Help | Run(configuration: DemoConfiguration)

  /** The options loop of `parse(_:)` over the arguments after the program
      name: `--ticks` and the lines flag take the next token and apply it,
      at least 1, when it is a number; `--preview` sets the flag; other
      tokens are skipped. */
  function ApplyOptions(args: seq<string>, linesFlag: string, c: DemoConfiguration): (r: DemoConfiguration)
    decreases |args|
  {
    if |args| == 0 then c
    else if args[0] == "--ticks" then
      if |args| == 1 then c
      else
        var parsed := ParseInt(args[1]);
        ApplyOptions(args[2..], linesFlag, if parsed.Some? then c.(maximumTicks := Max(1, parsed.value)) else c)
    else if args[0] == linesFlag then
      if |args| == 1 then c
      else
        var parsed := ParseInt(args[1]);
        ApplyOptions(args[2..], linesFlag, if parsed.Some? then c.(lines := Max(1, parsed.value)) else c)
    else if args[0] == "--preview" then ApplyOptions(args[1..], linesFlag, c.(shouldPrintPreview := true))
    else ApplyOptions(args[1..], linesFlag, c)
  }

  /** The options never bring a count below 1 once it is at least 1, and
      never clear the preview flag. */
  lemma {:induction false} ApplyOptionsKeepsPositive(args: seq<string>, linesFlag: string, c: DemoConfiguration)
    requires c.maximumTicks >= 1 && c.lines >= 1
    ensures ApplyOptions(args, linesFlag, c).maximumTicks >= 1 && ApplyOptions(args, linesFlag, c).lines >= 1
    ensures c.shouldPrintPreview ==> ApplyOptions(args, linesFlag, c).shouldPrintPreview
    decreases |args|
  {
    if |args| == 0 {
    } else if args[0] == "--ticks" || args[0] == linesFlag {
      if |args| > 1 {
        var parsed := ParseInt(args[1]);
        var next := if args[0] == "--ticks" then
            (if parsed.Some? then c.(maximumTicks := Max(1, parsed.value)) else c)
          else (if parsed.Some? then c.(lines := Max(1, parsed.value)) else c);
        ApplyOptionsKeepsPositive(args[2..], linesFlag, next);
      }
    } else if args[0] == "--preview" {
      ApplyOptionsKeepsPositive(args[1..], linesFlag, c.(shouldPrintPreview := true));
    } else {
      ApplyOptionsKeepsPositive(args[1..], linesFlag, c);
    }
  }

  /** `parse(_:)`: help when `--help` or `-h` appears anywhere, the program
      name included; otherwise the options applied to the defaults. */
  function Parse(arguments: seq<string>, linesFlag: string, defaults: DemoConfiguration): (r: Arguments)
    ensures r.Help? <==> "--help" in arguments || "-h" in arguments
  {
    if "--help" in arguments || "-h" in arguments then Help
    else Run(ApplyOptions(if |arguments| == 0 then [] else arguments[1..], linesFlag, defaults))
  }

  /** A parsed configuration keeps both counts at least 1. */
  lemma ParsedCountsArePositive(arguments: seq<string>, linesFlag: string, defaults: DemoConfiguration)
    requires defaults.maximumTicks >= 1 && defaults.lines >= 1
    ensures Parse(arguments, linesFlag, defaults).Run? ==>
      Parse(arguments, linesFlag, defaults).configuration.maximumTicks >= 1 &&
      Parse(arguments, linesFlag, defaults).configuration.lines >= 1
  {
    ApplyOptionsKeepsPositive(if |arguments| == 0 then [] else arguments[1..], linesFlag, defaults);
  }

  /** The loop of `parse(_:)` as written, over an iterator of the arguments
      after the program name. */
  method ParseArguments(arguments: seq<string>, linesFlag: string, defaults: DemoConfiguration) returns (r: Arguments)
    ensures r == Parse(arguments, linesFlag, defaults)
  {
    if "--help" in arguments || "-h" in arguments {
      return Help;
    }
    var args := if |arguments| == 0 then [] else arguments[1..];
    var configuration := defaults;
    var i := 0;
    while i < |args|
      invariant 0 <= i <= |args|
      invariant ApplyOptions(args[i..], linesFlag, configuration) == ApplyOptions(args, linesFlag, defaults)
      decreases |args| - i
    {
      var argument := args[i];
      i := i + 1;
      if argument == "--ticks" {
        if i < |args| {
          var value := args[i];
          i := i + 1;
          var parsed := ParseInt(value);
          if parsed.Some? {
            configuration := configuration.(maximumTicks := Max(1, parsed.value));
          }
        }
      } else if argument == linesFlag {
        if i < |args| {
          var value := args[i];
          i := i + 1;
          var parsed := ParseInt(value);
          if parsed.Some? {
            configuration := configuration.(lines := Max(1, parsed.value));
          }
        }
      } else if argument == "--preview" {
        configuration := configuration.(shouldPrintPreview := true);
      }
    }
    r := Run(configuration);
  }

  /** "Tick n: message", as the demos log it. */
  function TickMessage(tick: int, message: string): (r: string)
    ensures |r| == |IntDescription(tick)| + |message| + 7
    ensures r[..5] == "Tick " && r[5..|r| - |message| - 2] == IntDescription(tick)
    ensures r[|r| - |message| - 2..|r| - |message|] == ": " && r[|r| - |message|..] == message
  {
    "Tick " + IntDescription(tick) + ": " + message
  }
}
