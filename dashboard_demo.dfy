/** The dashboard example (Examples/DashboardDemo/DashboardDemoApp.swift):
    its configuration, argument parsing, and the tick counter and bounded
    log of `DemoDashboardState`. The CPU and memory figures are floating
    point waves and not part of this model: their rounded percentages are
    parameters. */
module DashboardDemo {
  import opened Wrappers
  import opened Geometry
  import opened Text
  import opened DemoSupport

  /** The flag that sets the number of log lines. */
  const LinesFlag: string := "--log-lines"

  /** `DemoDashboardConfiguration.default`: 60 ticks, 6 log lines. */
  const Defaults: DemoConfiguration := MakeConfiguration(60, 6, false)

  /** `DashboardDemoArguments.parse(_:)`. */
  method ParseDashboardArguments(arguments: seq<string>) returns (r: Arguments)
    ensures r == Parse(arguments, LinesFlag, Defaults)
    ensures r.Help? <==> "--help" in arguments || "-h" in arguments
    ensures r.Run? ==> r.configuration.maximumTicks >= 1 && r.configuration.lines >= 1
  {
    ParsedCountsArePositive(arguments, LinesFlag, Defaults);
    r := ParseArguments(arguments, LinesFlag, Defaults);
  }

  /** The operations console's lines flag means nothing here: it and its
      value are skipped as unknown tokens. */
  lemma ForeignFlagIgnored()
    ensures Parse(["DashboardDemo", "--event-lines", "3"], LinesFlag, Defaults) == Run(Defaults)
  {
    assert ["DashboardDemo", "--event-lines", "3"][1..] == ["--event-lines", "3"];
    assert ["--event-lines", "3"][1..] == ["3"];
    assert ["3"][1..] == [];
  }

  /** The message of tick `tick`, chosen by the tick modulo 4. */
  function TickLogMessage(tick: nat, cpuPercent: int, memoryPercent: int): (r: string)
    ensures tick % 4 == 0 ==> r == "Sampling sensors…"
    ensures tick % 4 == 1 ==> r == "CPU load steady at " + IntDescription(cpuPercent) + "%"
    ensures tick % 4 == 2 ==> r == "Memory pressure at " + IntDescription(memoryPercent) + "%"
    ensures tick % 4 == 3 ==> r == "Tick " + IntDescription(tick) + " processed"
  {
    match tick % 4
    case 0 => "Sampling sensors…"
    case 1 => "CPU load steady at " + IntDescription(cpuPercent) + "%"
    case 2 => "Memory pressure at " + IntDescription(memoryPercent) + "%"
    case _ => "Tick " + IntDescription(tick) + " processed"
  }

  /** `DemoDashboardState`: the tick count and the bounded log. */
  class DemoDashboardState {
    var tickCount: nat
    var logStorage: seq<string>
    const logDisplayLimit: int

    ghost predicate Valid()
      reads this
    {
      logDisplayLimit >= 1 && |logStorage| <= LogCapacity(logDisplayLimit)
    }

    /** `init(logDisplayLimit:)`: the limit is at least 1 and the log holds
        two start-up lines. */
    constructor(logDisplayLimit: int)
      ensures Valid() && this.logDisplayLimit == Max(1, logDisplayLimit) && tickCount == 0
      ensures logStorage == ["Starting dashboard runtime…", "Connecting to telemetry stream…"]
    {
      this.logDisplayLimit := Max(1, logDisplayLimit);
      tickCount := 0;
      logStorage := ["Starting dashboard runtime…", "Connecting to telemetry stream…"];
    }

    /** `visibleLogs`: the newest `logDisplayLimit` entries. */
    function VisibleLogs(): (r: seq<string>)
      requires Valid()
      reads this
      ensures |r| == Min(logDisplayLimit, |logStorage|) && r == logStorage[|logStorage| - |r|..]
    {
      Visible(logStorage, logDisplayLimit)
    }

    /** `appendLog(_:)`: append, then drop the oldest entries beyond the
        capacity. */
    method AppendLog(message: string)
      requires Valid()
      modifies this
      ensures Valid() && logStorage == TrimToRecent(old(logStorage) + [message], logDisplayLimit)
      ensures tickCount == old(tickCount)
    {
      logStorage := logStorage + [message];
      var maxStorage := LogCapacity(logDisplayLimit);
      if |logStorage| > maxStorage {
        logStorage := logStorage[|logStorage| - maxStorage..];
      }
    }

    /** `advanceTick()`: one more tick and exactly one more log entry, the
        tick's message. */
    method AdvanceTick(cpuPercent: int, memoryPercent: int)
      requires Valid()
      modifies this
      ensures Valid() && tickCount == old(tickCount) + 1
      ensures logStorage ==
        TrimToRecent(old(logStorage) + [TickMessage(tickCount, TickLogMessage(tickCount, cpuPercent, memoryPercent))], logDisplayLimit)
    {
      tickCount := tickCount + 1;
      AppendLog(TickMessage(tickCount, TickLogMessage(tickCount, cpuPercent, memoryPercent)));
    }
  }

  /** A tick's entry is the newest in the log, and the log grows by one
      until it is full, then stays full. */
  lemma TickEntryIsNewest(log: seq<string>, entry: string, limit: int)
    requires |log| <= LogCapacity(limit)
    ensures var after := TrimToRecent(log + [entry], limit);
      after[|after| - 1] == entry &&
      |after| == (if |log| < LogCapacity(limit) then |log| + 1 else |log|) &&
      after[..|after| - 1] == log[|log| + 1 - |after|..]
  {
    AppendKeepsNewest(log, [entry], limit);
  }
}
