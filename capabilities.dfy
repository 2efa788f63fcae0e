/** `TerminalCapabilities` and its inspector
    (Sources/SwiftCursesKit/Runtime/TerminalCapabilities.swift). The probes
    of the native layer are oracles whose answers are parameters. */
module Capabilities {
  import opened Geometry

  datatype TerminalCapabilities = TerminalCapabilities(
    isHeadless: bool,
    supportsColor: bool,
    colorCount: int,
    colorPairCount: int,
    supportsDefaultColors: bool,
    supportsDynamicColorChanges: bool,
    supportsMouse: bool)

  /** `TerminalCapabilities.headless`. */
  const Headless: TerminalCapabilities := TerminalCapabilities(true, false, 0, 0, false, false, false)

  /** Every colour field false or zero. */
  predicate NoColor(c: TerminalCapabilities)
  {
    !c.supportsColor && c.colorCount == 0 && c.colorPairCount == 0 &&
    !c.supportsDefaultColors && !c.supportsDynamicColorChanges
  }

  /** What the native layer answers to the inspector's probes. The runtime
      is asked whether it is headless twice; both answers are `headless`. */
  datatype Probes = Probes(
    headless: bool,
    hasColorSupport: bool,
    startColorSucceeds: bool,
    colorCount: int,
    colorPairCount: int,
    enableDefaultColors: bool,
    canChangeColor: bool,
    hasMouseSupport: bool)

  /** `TerminalCapabilitiesInspector.inspect()`. */
  function Inspect(p: Probes): (r: TerminalCapabilities)
    ensures p.headless ==> r == Headless
    ensures !p.headless ==> !r.isHeadless && r.supportsMouse == p.hasMouseSupport
    ensures !p.headless && (!p.hasColorSupport || !p.startColorSucceeds) ==> NoColor(r)
    ensures r.colorCount >= 0 && r.colorPairCount >= 0
    ensures r.supportsColor <==> !p.headless && p.hasColorSupport && p.startColorSucceeds
  {
    if p.headless then Headless
    else
      var colored := p.hasColorSupport && p.startColorSucceeds;
      TerminalCapabilities(
        false,
        colored,
        if colored then Max(p.colorCount, 0) else 0,
        if colored then Max(p.colorPairCount, 0) else 0,
        colored && p.enableDefaultColors,
        colored && p.canChangeColor,
        p.hasMouseSupport && !p.headless)
  }

  /** With colour started, the counts are the probed ones clamped at zero
      and the two flags are the probed ones. */
  lemma InspectWithColor(p: Probes)
    requires !p.headless && p.hasColorSupport && p.startColorSucceeds
    ensures Inspect(p).colorCount == Max(p.colorCount, 0) && Inspect(p).colorPairCount == Max(p.colorPairCount, 0)
    ensures Inspect(p).supportsDefaultColors == p.enableDefaultColors
    ensures Inspect(p).supportsDynamicColorChanges == p.canChangeColor
  {
  }
}
