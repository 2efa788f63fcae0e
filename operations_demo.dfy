/** The operations console example (Examples/OperationsDemo/OperationsDemoApp.swift):
    its configuration, argument parsing, and the event log and focus of
    `OperationsDemoState`. Task progress is floating point and not part of
    this model: what the tasks report on a tick is a parameter. */
module OperationsDemo {
  import opened Wrappers
  import opened Geometry
  import opened Text
  import opened DemoSupport

  /** The flag that sets the number of event lines. */
  const LinesFlag: string := "--event-lines"

  /** `OperationsDemoConfiguration.default`: 90 ticks, 8 event lines. */
  const Defaults: DemoConfiguration := MakeConfiguration(90, 8, false)

  /** `OperationsDemoArguments.parse(_:)`. */
  method ParseOperationsArguments(arguments: seq<string>) returns (r: Arguments)
    ensures r == Parse(arguments, LinesFlag, Defaults)
    ensures r.Help? <==> "--help" in arguments || "-h" in arguments
    ensures r.Run? ==> r.configuration.maximumTicks >= 1 && r.configuration.lines >= 1
  {
    ParsedCountsArePositive(arguments, LinesFlag, Defaults);
    r := ParseArguments(arguments, LinesFlag, Defaults);
  }

  /** `--ticks` and `--event-lines` take their values, a value that is not
      a number is consumed and ignored, and `--preview` sets the flag. */
  lemma ParseExample()
    ensures Parse(["OperationsDemo", "--ticks", "5", "--event-lines", "many", "--preview"], LinesFlag, Defaults)
      == Run(DemoConfiguration(5, 8, true))
  {
    var args := ["--ticks", "5", "--event-lines", "many", "--preview"];
    assert ["OperationsDemo", "--ticks", "5", "--event-lines", "many", "--preview"][1..] == args;
    assert ParseInt("5") == Some(5) by {
      assert AllDigits("5");
      assert DigitsValue("5") == DigitsValue("") * 10 + ('5' as int - '0' as int);
    }
    assert ParseInt("many").None? by {
      assert !IsDigit("many"[0]);
    }
    assert args[2..] == ["--event-lines", "many", "--preview"];
    assert args[2..][2..] == ["--preview"];
  }

  /** "Release #n". */
  function ReleaseName(n: int): string
  {
    "Release #" + IntDescription(n)
  }

  /** The log lines a tick adds: one per task event, then on every fifth
      tick the newly focused task, on every seventh an autoscaler line and
      on every ninth the error budget. */
  function TickEvents(tick: int, taskEvents: seq<string>, focusedName: string, budgetPercent: int): (r: seq<string>)
    ensures |r| >= |taskEvents|
    ensures forall i :: 0 <= i < |taskEvents| ==> r[i] == TickMessage(tick, taskEvents[i])
    ensures |r| == |taskEvents| <==> tick % 5 != 0 && tick % 7 != 0 && tick % 9 != 0
  {
    TaskEventLines(tick, taskEvents) + MonitoringLine(tick, focusedName) + AutoscalerLine(tick) + BudgetLine(tick, budgetPercent)
  }

  /** Each task event as a tick line. */
  function TaskEventLines(tick: int, taskEvents: seq<string>): (r: seq<string>)
    ensures |r| == |taskEvents| && forall i :: 0 <= i < |r| ==> r[i] == TickMessage(tick, taskEvents[i])
  {
    seq(|taskEvents|, i requires 0 <= i < |taskEvents| => TickMessage(tick, taskEvents[i]))
  }

  /** The focus line of every fifth tick. */
  function MonitoringLine(tick: int, focusedName: string): (r: seq<string>)
    ensures |r| == (if tick % 5 == 0 then 1 else 0)
  {
    if tick % 5 == 0 then [TickMessage(tick, "Monitoring " + focusedName)] else []
  }

  /** The autoscaler line of every seventh tick, a scale-out on every
      fourteenth. */
  function AutoscalerLine(tick: int): (r: seq<string>)
    ensures |r| == (if tick % 7 == 0 then 1 else 0)
  {
    if tick % 7 == 0 then
      [TickMessage(tick, if tick % 14 == 0 then "Scale-out request acknowledged" else "Autoscaler adjusted compute pool")]
    else []
  }

  /** The error-budget line of every ninth tick. */
  function BudgetLine(tick: int, budgetPercent: int): (r: seq<string>)
    ensures |r| == (if tick % 9 == 0 then 1 else 0)
  {
    if tick % 9 == 0 then [TickMessage(tick, "Error budget holding at " + IntDescription(budgetPercent) + "%")] else []
  }

  /** The inner loops of `advanceTick()`: each task's events as tick lines,
      in task order. */
  method CollectTaskEvents(tick: int, taskEvents: seq<string>) returns (lines: seq<string>)
    ensures lines == TaskEventLines(tick, taskEvents)
  {
    lines := [];
    var i := 0;
    while i < |taskEvents|
      invariant 0 <= i <= |taskEvents|
      invariant lines == TaskEventLines(tick, taskEvents[..i])
    {
      lines := lines + [TickMessage(tick, taskEvents[i])];
      i := i + 1;
    }
    assert taskEvents[..i] == taskEvents;
  }

  /** `OperationsDemoState`: the tick count, the task names, the focused
      task and the bounded event log. */
  class OperationsDemoState {
    var tickCount: nat
    var tasks: seq<string>
    var focusIndex: int
    var eventLog: seq<string>
    const eventDisplayLimit: int

    /** Four tasks, a focus among them, and a log within its capacity. */
    ghost predicate Valid()
      reads this
    {
      |tasks| == 4 && 0 <= focusIndex < |tasks| && eventDisplayLimit >= 1 &&
      |eventLog| <= LogCapacity(eventDisplayLimit)
    }

    /** `init(eventDisplayLimit:)`: the limit is at least 1, four tasks named
        Release #1 to #4, focus on the first, two start-up lines. */
    constructor(eventDisplayLimit: int)
      ensures Valid() && this.eventDisplayLimit == Max(1, eventDisplayLimit)
      ensures tickCount == 0 && focusIndex == 0
      ensures tasks == [ReleaseName(1), ReleaseName(2), ReleaseName(3), ReleaseName(4)]
      ensures eventLog == ["Starting operations console…", "Synchronizing orchestrators…"]
    {
      this.eventDisplayLimit := Max(1, eventDisplayLimit);
      tickCount := 0;
      tasks := [ReleaseName(1), ReleaseName(2), ReleaseName(3), ReleaseName(4)];
      focusIndex := 0;
      eventLog := ["Starting operations console…", "Synchronizing orchestrators…"];
    }

    /** `visibleEvents`: the newest `eventDisplayLimit` log lines. */
    function VisibleEvents(): (r: seq<string>)
      requires Valid()
      reads this
      ensures |r| == Min(eventDisplayLimit, |eventLog|) && r == eventLog[|eventLog| - |r|..]
    {
      Visible(eventLog, eventDisplayLimit)
    }

    /** `focusedTaskName`. */
    function FocusedTaskName(): (r: string)
      requires Valid()
      reads this
      ensures r in tasks
    {
      tasks[focusIndex]
    }

    /** `log(_:)`: append one line, then trim. */
    method Log(message: string)
      requires Valid()
      modifies this
      ensures Valid() && eventLog == TrimToRecent(old(eventLog) + [message], eventDisplayLimit)
      ensures eventLog[|eventLog| - 1] == message
      ensures tickCount == old(tickCount) && tasks == old(tasks) && focusIndex == old(focusIndex)
    {
      eventLog := eventLog + [message];
      TrimEventLog();
    }

    /** `trimEventLog()`. */
    method TrimEventLog()
      requires |tasks| == 4 && 0 <= focusIndex < |tasks| && eventDisplayLimit >= 1
      modifies this
      ensures Valid() && eventLog == TrimToRecent(old(eventLog), eventDisplayLimit)
      ensures tickCount == old(tickCount) && tasks == old(tasks) && focusIndex == old(focusIndex)
    {
      var maxStorage := LogCapacity(eventDisplayLimit);
      if |eventLog| > maxStorage {
        eventLog := eventLog[|eventLog| - maxStorage..];
      }
    }

    /** `focusNextManually()`: the next task, wrapping around, is pinned and
        logged. */
    method FocusNextManually()
      requires Valid()
      modifies this
      ensures Valid() && focusIndex == (old(focusIndex) + 1) % |tasks|
      ensures eventLog == TrimToRecent(old(eventLog) + ["Operator pinned " + tasks[focusIndex]], eventDisplayLimit)
      ensures tickCount == old(tickCount) && tasks == old(tasks)
    {
      focusIndex := (focusIndex + 1) % Max(1, |tasks|);
      Log("Operator pinned " + tasks[focusIndex]);
    }

    /** `advanceTick()`: the tick count moves on, the tasks report
        `taskEvents` and are renamed to `taskNames`, every fifth tick moves
        the focus, and the tick's lines, if any, are logged and the log
        trimmed. */
    method AdvanceTick(taskEvents: seq<string>, taskNames: seq<string>, budgetPercent: int)
      requires Valid() && |taskNames| == |tasks|
      modifies this
      ensures Valid() && tickCount == old(tickCount) + 1 && tasks == taskNames
      ensures focusIndex == if tickCount % 5 == 0 then (old(focusIndex) + 1) % |tasks| else old(focusIndex)
      ensures var added := TickEvents(tickCount, taskEvents, tasks[focusIndex], budgetPercent);
        eventLog == if |added| == 0 then old(eventLog) else TrimToRecent(old(eventLog) + added, eventDisplayLimit)
    {
      tickCount := tickCount + 1;
      tasks := taskNames;
      var newEvents := CollectTaskEvents(tickCount, taskEvents);
      if tickCount % 5 == 0 {
        focusIndex := (focusIndex + 1) % Max(1, |tasks|);
      }
      newEvents := newEvents + MonitoringLine(tickCount, tasks[focusIndex]) + AutoscalerLine(tickCount) +
        BudgetLine(tickCount, budgetPercent);
      if |newEvents| > 0 {
        eventLog := eventLog + newEvents;
        TrimEventLog();
      }
    }
  }
}
