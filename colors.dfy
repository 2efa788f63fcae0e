/** Colours, colour-pair configurations and themes
    (Sources/SwiftCursesKit/Runtime/Color/TerminalColor.swift,
    ColorPairConfiguration.swift and TerminalTheme.swift). */
module Colors {
  import opened Wrappers
  import opened Capabilities

  type Int16 = x: int | -0x8000 <= x < 0x8000

  /** `TerminalColor`: an ncurses colour index. */
  datatype TerminalColor = TerminalColor(rawValue: Int16)
  {
    /** `isSupported(by:)`. */
    predicate IsSupported(capabilities: TerminalCapabilities)
    {
      0 <= rawValue < capabilities.colorCount
    }
  }

  /** `init(index:)`: the `Int16` conversion traps for an index that does not
      fit, so callers must pass one that does. */
  function ColorFromIndex(index: int): (r: TerminalColor)
    requires -0x8000 <= index < 0x8000
    ensures r.rawValue == index
  {
    TerminalColor(index)
  }

  /** A colour is supported exactly when its index is non-negative and
      below the colour count; so never with a negative index, and never on
      a terminal that reports no colours. */
  lemma ColorSupport(c: TerminalColor, capabilities: TerminalCapabilities)
    ensures c.rawValue < 0 ==> !c.IsSupported(capabilities)
    ensures capabilities.colorCount <= 0 ==> !c.IsSupported(capabilities)
    ensures !c.IsSupported(Headless)
  {
  }

  /** `ColorPairConfiguration`: nil stands for the terminal's default. */
  datatype ColorPairConfiguration = ColorPairConfiguration(foreground: Option<TerminalColor>, background: Option<TerminalColor>)
  {
    /** `isDefault`. */
    predicate IsDefault()
    {
      foreground.None? && background.None?
    }

    /** `requiresDefaultColors`. */
    predicate RequiresDefaultColors()
    {
      foreground.None? || background.None?
    }

    /** `isSupported(by:)`: colour must be on, the default colours available
        when one side uses them, and each given colour supported. */
    predicate IsSupported(capabilities: TerminalCapabilities)
    {
      if !capabilities.supportsColor then false
      else if RequiresDefaultColors() && !capabilities.supportsDefaultColors then false
      else if foreground.Some? && !foreground.value.IsSupported(capabilities) then false
      else if background.Some? && !background.value.IsSupported(capabilities) then false
      else true
    }

    /** `resolvedComponents(for:)`: the default colour is ncurses' -1. */
    function ResolvedComponents(capabilities: TerminalCapabilities): (r: (Int16, Int16))
      ensures r.0 == (if foreground.Some? then foreground.value.rawValue else -1)
      ensures r.1 == (if background.Some? then background.value.rawValue else -1)
    {
      (match foreground case Some(c) => c.rawValue case None => -1,
       match background case Some(c) => c.rawValue case None => -1)
    }
  }

  /** `ColorPairConfiguration.monochrome`. */
  const Monochrome: ColorPairConfiguration := ColorPairConfiguration(None, None)

  /** The configuration predicates stated outright: default exactly when
      both sides are nil (so monochrome is default), needing the default
      colours when either is, and supported exactly when colour is on, the
      default colours are there if needed and every given colour is within
      the colour count. */
  lemma ConfigurationPredicates(c: ColorPairConfiguration, capabilities: TerminalCapabilities)
    ensures c.IsDefault() <==> c.foreground.None? && c.background.None?
    ensures Monochrome.IsDefault()
    ensures c.RequiresDefaultColors() <==> c.foreground.None? || c.background.None?
    ensures c.IsSupported(capabilities) <==>
      capabilities.supportsColor &&
      (c.RequiresDefaultColors() ==> capabilities.supportsDefaultColors) &&
      (c.foreground.Some? ==> 0 <= c.foreground.value.rawValue < capabilities.colorCount) &&
      (c.background.Some? ==> 0 <= c.background.value.rawValue < capabilities.colorCount)
    ensures !c.IsSupported(Headless)
  {
  }

  /** `TerminalTheme.Entry`: the preferred configuration and its fallback. */
  datatype Entry = Entry(configuration: ColorPairConfiguration, fallback: ColorPairConfiguration)

  /** `Entry.init(configuration:)` with the default fallback. */
  function MakeEntry(configuration: ColorPairConfiguration): (r: Entry)
    ensures r.configuration == configuration && r.fallback == Monochrome
  {
    Entry(configuration, Monochrome)
  }

  /** The configuration `colorPair(for:using:)` asks the palette for:
      without colour the entry's fallback (monochrome without an entry);
      with colour and no entry monochrome; else the entry's configuration
      when the terminal supports it, and its fallback otherwise. */
  function ThemeConfiguration<Role>(entries: map<Role, Entry>, role: Role, capabilities: TerminalCapabilities): (r: ColorPairConfiguration)
    ensures role !in entries ==> r == Monochrome
    ensures role in entries ==> r == entries[role].configuration || r == entries[role].fallback
    ensures capabilities.supportsColor && r != Monochrome ==> role in entries
  {
    if !capabilities.supportsColor then
      if role in entries then entries[role].fallback else Monochrome
    else if role !in entries then Monochrome
    else if entries[role].configuration.IsSupported(capabilities) then entries[role].configuration
    else entries[role].fallback
  }

  /** The theme's choice for a role with an entry: the configuration
      exactly when colour is on and the configuration is supported, the
      fallback otherwise. */
  lemma ThemeChoosesConfigurationOrFallback<Role>(entries: map<Role, Entry>, role: Role, capabilities: TerminalCapabilities)
    requires role in entries
    ensures var e := entries[role];
      ThemeConfiguration(entries, role, capabilities) ==
        if capabilities.supportsColor && e.configuration.IsSupported(capabilities) then e.configuration else e.fallback
  {
  }

  /** An entry made with the default fallback resolves to monochrome
      whenever its configuration cannot be used. */
  lemma DefaultFallbackIsMonochrome<Role>(role: Role, configuration: ColorPairConfiguration, capabilities: TerminalCapabilities)
    requires !configuration.IsSupported(capabilities)
    ensures ThemeConfiguration(map[role := MakeEntry(configuration)], role, capabilities) == Monochrome
  {
  }
}
