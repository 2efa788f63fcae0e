/** `ColorPairRegistry` (Sources/SwiftCursesKit/Runtime/Internal/ColorPairRegistry.swift):
    a cache from colour-pair configurations to ncurses pair identifiers and
    the counter that hands out new identifiers. The native `init_pair` call
    is an oracle whose outcome is a parameter. */
module ColorRegistry {
  import opened Wrappers
  import opened CNCursesRuntime
  import RuntimeErrors
  import opened Capabilities
  import opened Colors

  /** `ColorPaletteError`. */
  datatype PaletteError = CapacityExceeded | NcursesCallFailed(code: int)

  /** `ColorPair.default`. */
  const DefaultPair: Int16 := 0

  /** What the registry decides under its lock. */
  datatype Evaluation = UseDefault | Cached(pair: Int16) | Allocate(identifier: Int16, capabilities: TerminalCapabilities) | OutOfPairs

  /** Whether the decision gets as far as comparing the counter with the
      pair count. */
  predicate ReachesCapacityCheck(capabilities: TerminalCapabilities, cache: map<ColorPairConfiguration, Int16>,
                                 configuration: ColorPairConfiguration)
  {
    !configuration.IsDefault() && capabilities.supportsColor && configuration.IsSupported(capabilities) &&
    configuration !in cache
  }

  /** `Int16(capabilities.colorPairCount)` traps when the count does not
      fit; a decision that reaches it needs a count that does. */
  predicate PairCountConvertible(capabilities: TerminalCapabilities, cache: map<ColorPairConfiguration, Int16>,
                                 configuration: ColorPairConfiguration)
  {
    ReachesCapacityCheck(capabilities, cache, configuration) ==> -0x8000 <= capabilities.colorPairCount < 0x8000
  }

  /** The lock-protected decision of `pair(for:)`. */
  function Evaluate(capabilities: TerminalCapabilities, cache: map<ColorPairConfiguration, Int16>, next: Int16,
                    configuration: ColorPairConfiguration): (r: Evaluation)
    requires PairCountConvertible(capabilities, cache, configuration)
    ensures r.UseDefault? <==> configuration.IsDefault() || !configuration.IsSupported(capabilities)
    ensures r.Cached? <==> !r.UseDefault? && configuration in cache
    ensures r.Cached? ==> r.pair == cache[configuration]
    ensures r.OutOfPairs? <==> ReachesCapacityCheck(capabilities, cache, configuration) && next >= capabilities.colorPairCount
    ensures r.Allocate? ==> r.identifier == next && r.capabilities == capabilities && next < capabilities.colorPairCount
  {
    if configuration.IsDefault() || !capabilities.supportsColor then UseDefault
    else if !configuration.IsSupported(capabilities) then UseDefault
    else if configuration in cache then Cached(cache[configuration])
    else if next >= capabilities.colorPairCount then OutOfPairs
    else Allocate(next, capabilities)
  }

  /** The registry's invariant: the counter is at least 1 and at most the
      pair count once it has moved; every cached pair is a distinct
      identifier below the counter, for a non-default configuration the
      capabilities support. */
  ghost predicate RegistryInvariant(capabilities: TerminalCapabilities, cache: map<ColorPairConfiguration, Int16>, next: Int16)
  {
    1 <= next && (next == 1 || next <= capabilities.colorPairCount) &&
    (forall c <- cache :: 1 <= cache[c] < next && !c.IsDefault() && c.IsSupported(capabilities)) &&
    (forall c <- cache, d <- cache :: cache[c] == cache[d] ==> c == d)
  }

  /** An allocation hands out an identifier in [1, pair count) that no
      cached configuration holds, and the updated cache and counter keep
      the invariant. */
  lemma AllocationKeepsInvariant(capabilities: TerminalCapabilities, cache: map<ColorPairConfiguration, Int16>, next: Int16,
                                 configuration: ColorPairConfiguration)
    requires RegistryInvariant(capabilities, cache, next)
    requires PairCountConvertible(capabilities, cache, configuration)
    requires Evaluate(capabilities, cache, next, configuration).Allocate?
    ensures 1 <= next < capabilities.colorPairCount
    ensures forall c <- cache :: cache[c] != next
    ensures next + 1 < 0x8000
    ensures RegistryInvariant(capabilities, cache[configuration := next], next + 1)
  {
    var cache' := cache[configuration := next];
    forall c <- cache', d <- cache' | cache'[c] == cache'[d]
      ensures c == d
    {
      if c != configuration && d != configuration {
        assert cache[c] == cache[d];
      }
    }
  }

  /** The capacity the guard evidently means: the pair count converted with
      `Int16(clamping:)`, so a count above `Int16.max` caps the identifiers
      instead of trapping. */
  function PairCapacity(capabilities: TerminalCapabilities): (r: int)
    ensures r <= 0x7FFF && r <= capabilities.colorPairCount
    ensures capabilities.colorPairCount <= 0x7FFF ==> r == capabilities.colorPairCount
    ensures capabilities.colorPairCount > 0x7FFF ==> r == 0x7FFF
  {
    if capabilities.colorPairCount > 0x7FFF then 0x7FFF else capabilities.colorPairCount
  }

  /** The decision of `pair(for:)` with the counter compared against
      `PairCapacity`: defined for every pair count. */
  function EvaluateClamped(capabilities: TerminalCapabilities, cache: map<ColorPairConfiguration, Int16>, next: Int16,
                           configuration: ColorPairConfiguration): (r: Evaluation)
    ensures r.UseDefault? <==> configuration.IsDefault() || !configuration.IsSupported(capabilities)
    ensures r.Cached? <==> !r.UseDefault? && configuration in cache
    ensures r.Cached? ==> r.pair == cache[configuration]
    ensures r.OutOfPairs? <==> ReachesCapacityCheck(capabilities, cache, configuration) && next >= PairCapacity(capabilities)
    ensures r.Allocate? ==> r.identifier == next && r.capabilities == capabilities && next < PairCapacity(capabilities)
  {
    if configuration.IsDefault() || !capabilities.supportsColor then UseDefault
    else if !configuration.IsSupported(capabilities) then UseDefault
    else if configuration in cache then Cached(cache[configuration])
    else if next >= PairCapacity(capabilities) then OutOfPairs
    else Allocate(next, capabilities)
  }

  /** Wherever the conversion does not trap, the clamped decision is the
      code's decision. */
  lemma EvaluateClampedAgrees(capabilities: TerminalCapabilities, cache: map<ColorPairConfiguration, Int16>, next: Int16,
                              configuration: ColorPairConfiguration)
    requires PairCountConvertible(capabilities, cache, configuration)
    requires 1 <= next
    ensures EvaluateClamped(capabilities, cache, next, configuration) == Evaluate(capabilities, cache, next, configuration)
  {
  }

  /** For every pair count, a clamped allocation hands out an identifier in
      [1, pair count) below `Int16.max`, so the counter's increment stays in
      Int16, and the updated cache and counter keep the invariant. */
  lemma ClampedAllocationKeepsInvariant(capabilities: TerminalCapabilities, cache: map<ColorPairConfiguration, Int16>,
                                        next: Int16, configuration: ColorPairConfiguration)
    requires RegistryInvariant(capabilities, cache, next)
    requires EvaluateClamped(capabilities, cache, next, configuration).Allocate?
    ensures 1 <= next < capabilities.colorPairCount && next < 0x7FFF
    ensures forall c <- cache :: cache[c] != next
    ensures next + 1 < 0x8000
    ensures RegistryInvariant(capabilities, cache[configuration := next], next + 1)
  {
    var cache' := cache[configuration := next];
    forall c <- cache', d <- cache' | cache'[c] == cache'[d]
      ensures c == d
    {
      if c != configuration && d != configuration {
        assert cache[c] == cache[d];
      }
    }
  }

  /** On a 256-colour terminal, whose 65536 pairs do not fit in Int16, the
      clamped registry allocates pair 1 for a first request, and refuses
      once the counter reaches `Int16.max`. */
  lemma WidePaletteIsCapped(cache: map<ColorPairConfiguration, Int16>, configuration: ColorPairConfiguration)
    requires ReachesCapacityCheck(TerminalCapabilities(false, true, 256, 65536, true, false, false), cache, configuration)
    ensures EvaluateClamped(TerminalCapabilities(false, true, 256, 65536, true, false, false), cache, 1, configuration)
      == Allocate(1, TerminalCapabilities(false, true, 256, 65536, true, false, false))
    ensures EvaluateClamped(TerminalCapabilities(false, true, 256, 65536, true, false, false), cache, 0x7FFF, configuration)
      == OutOfPairs
    ensures !PairCountConvertible(TerminalCapabilities(false, true, 256, 65536, true, false, false), cache, configuration)
  {
  }

  /** The resolved components the registry passes to `init_pair`. */
  function InitArguments(identifier: Int16, configuration: ColorPairConfiguration, capabilities: TerminalCapabilities): (r: (Int16, Int16, Int16))
    ensures r.0 == identifier && (r.1, r.2) == configuration.ResolvedComponents(capabilities)
  {
    var components := configuration.ResolvedComponents(capabilities);
    (identifier, components.0, components.1)
  }

  /** The error code a failed `init_pair` is reported with: a failed call's
      own code, -1 for anything else. */
  function FailureCode(f: RuntimeErrors.NativeFailure): (r: int)
    ensures f.Known? && f.error.CallFailed? ==> r == f.error.code
    ensures !(f.Known? && f.error.CallFailed?) ==> r == -1
  {
    match f
    case Known(CallFailed(_, code)) => code
    case _ => -1
  }

  class ColorPairRegistry {
    var capabilities: TerminalCapabilities
    var cache: map<ColorPairConfiguration, Int16>
    var nextIdentifier: Int16
    /** The `init_pair` calls made, as (identifier, foreground, background). */
    var initCalls: seq<(Int16, Int16, Int16)>

    ghost predicate Valid()
      reads this
    {
      RegistryInvariant(capabilities, cache, nextIdentifier)
    }

    constructor()
      ensures Valid() && capabilities == Headless && cache == map[] && nextIdentifier == 1 && initCalls == []
    {
      capabilities := Headless;
      cache := map[];
      nextIdentifier := 1;
      initCalls := [];
    }

    /** `updateCapabilities(_:)`: new capabilities, an empty cache and the
        counter back at 1. */
    method UpdateCapabilities(capabilities: TerminalCapabilities)
      requires Valid()
      modifies this
      ensures Valid() && this.capabilities == capabilities && cache == map[] && nextIdentifier == 1
      ensures initCalls == old(initCalls)
    {
      this.capabilities := capabilities;
      cache := map[];
      nextIdentifier := 1;
    }

    /** `reset()`: headless capabilities, an empty cache and the counter back
        at 1. */
    method Reset()
      requires Valid()
      modifies this
      ensures Valid() && capabilities == Headless && cache == map[] && nextIdentifier == 1
      ensures initCalls == old(initCalls)
    {
      capabilities := Headless;
      cache := map[];
      nextIdentifier := 1;
    }

    /** `pair(for:)`: the default pair, a cached pair or a capacity error
        change nothing and call nothing; an allocation records the pair and
        moves the counter before calling `init_pair`, and a failure of that
        call is reported without undoing either. */
    method Pair(configuration: ColorPairConfiguration, native: Outcome<RuntimeErrors.NativeFailure>)
      returns (r: Result<Int16, PaletteError>)
      requires Valid() && PairCountConvertible(capabilities, cache, configuration)
      modifies this
      ensures Valid() && capabilities == old(capabilities)
      ensures var e := Evaluate(old(capabilities), old(cache), old(nextIdentifier), configuration);
        match e
        case UseDefault =>
          r == Ok(DefaultPair) && cache == old(cache) && nextIdentifier == old(nextIdentifier) && initCalls == old(initCalls)
        case Cached(p) =>
          r == Ok(p) && cache == old(cache) && nextIdentifier == old(nextIdentifier) && initCalls == old(initCalls)
        case OutOfPairs =>
          r == Err(CapacityExceeded) && cache == old(cache) && nextIdentifier == old(nextIdentifier) && initCalls == old(initCalls)
        case Allocate(id, caps) =>
          cache == old(cache)[configuration := id] && nextIdentifier == id + 1 &&
          initCalls == old(initCalls) + [InitArguments(id, configuration, caps)] &&
          r == (if native.Pass? then Ok(id) else Err(NcursesCallFailed(FailureCode(native.error))))
    {
      var e := Evaluate(capabilities, cache, nextIdentifier, configuration);
      if e.Allocate? {
        AllocationKeepsInvariant(capabilities, cache, nextIdentifier, configuration);
        nextIdentifier := nextIdentifier + 1;
        cache := cache[configuration := e.identifier];
      }
      match e
      case UseDefault =>
        r := Ok(DefaultPair);
      case Cached(p) =>
        r := Ok(p);
      case OutOfPairs =>
        r := Err(CapacityExceeded);
      case Allocate(id, caps) =>
        initCalls := initCalls + [InitArguments(id, configuration, caps)];
        if native.Fail? {
          return Err(NcursesCallFailed(FailureCode(native.error)));
        }
        r := Ok(id);
    }

    /** `pair(for:)` as its tests expect it: a failed `init_pair` takes the
        new entry out of the cache and gives its identifier back, so nothing
        is left of the failed allocation but the call itself; every other
        case is `pair(for:)`'s. */
    method PairWithRollback(configuration: ColorPairConfiguration, native: Outcome<RuntimeErrors.NativeFailure>)
      returns (r: Result<Int16, PaletteError>)
      requires Valid() && PairCountConvertible(capabilities, cache, configuration)
      modifies this
      ensures Valid() && capabilities == old(capabilities)
      ensures var e := Evaluate(old(capabilities), old(cache), old(nextIdentifier), configuration);
        match e
        case UseDefault =>
          r == Ok(DefaultPair) && cache == old(cache) && nextIdentifier == old(nextIdentifier) && initCalls == old(initCalls)
        case Cached(p) =>
          r == Ok(p) && cache == old(cache) && nextIdentifier == old(nextIdentifier) && initCalls == old(initCalls)
        case OutOfPairs =>
          r == Err(CapacityExceeded) && cache == old(cache) && nextIdentifier == old(nextIdentifier) && initCalls == old(initCalls)
        case Allocate(id, caps) =>
          initCalls == old(initCalls) + [InitArguments(id, configuration, caps)] &&
          (native.Pass? ==> r == Ok(id) && cache == old(cache)[configuration := id] && nextIdentifier == id + 1) &&
          (native.Fail? ==> r == Err(NcursesCallFailed(FailureCode(native.error))) &&
                            cache == old(cache) && nextIdentifier == old(nextIdentifier))
    {
      var cache0, next0 := cache, nextIdentifier;
      r := Pair(configuration, native);
      if r.Err? && r.error.NcursesCallFailed? {
        cache, nextIdentifier := cache0, next0;
      }
    }

    /** `pair(for:)` with the clamped capacity: the same cases as `Pair`,
        for every pair count, with every identifier handed out below
        `Int16.max`. */
    method PairClamped(configuration: ColorPairConfiguration, native: Outcome<RuntimeErrors.NativeFailure>)
      returns (r: Result<Int16, PaletteError>)
      requires Valid()
      modifies this
      ensures Valid() && capabilities == old(capabilities)
      ensures var e := EvaluateClamped(old(capabilities), old(cache), old(nextIdentifier), configuration);
        match e
        case UseDefault =>
          r == Ok(DefaultPair) && cache == old(cache) && nextIdentifier == old(nextIdentifier) && initCalls == old(initCalls)
        case Cached(p) =>
          r == Ok(p) && cache == old(cache) && nextIdentifier == old(nextIdentifier) && initCalls == old(initCalls)
        case OutOfPairs =>
          r == Err(CapacityExceeded) && cache == old(cache) && nextIdentifier == old(nextIdentifier) && initCalls == old(initCalls)
        case Allocate(id, caps) =>
          id < 0x7FFF && cache == old(cache)[configuration := id] && nextIdentifier == id + 1 &&
          initCalls == old(initCalls) + [InitArguments(id, configuration, caps)] &&
          r == (if native.Pass? then Ok(id) else Err(NcursesCallFailed(FailureCode(native.error))))
    {
      var e := EvaluateClamped(capabilities, cache, nextIdentifier, configuration);
      if e.Allocate? {
        ClampedAllocationKeepsInvariant(capabilities, cache, nextIdentifier, configuration);
        nextIdentifier := nextIdentifier + 1;
        cache := cache[configuration := e.identifier];
      }
      match e
      case UseDefault =>
        r := Ok(DefaultPair);
      case Cached(p) =>
        r := Ok(p);
      case OutOfPairs =>
        r := Err(CapacityExceeded);
      case Allocate(id, caps) =>
        initCalls := initCalls + [InitArguments(id, configuration, caps)];
        if native.Fail? {
          return Err(NcursesCallFailed(FailureCode(native.error)));
        }
        r := Ok(id);
    }
  }

  /** `TerminalTheme.colorPair(for:using:)`: the theme's choice of
      configuration for the role, resolved by the registry. */
  method ThemeColorPair<Role>(entries: map<Role, Entry>, role: Role, paletteCapabilities: TerminalCapabilities,
                              registry: ColorPairRegistry, native: Outcome<RuntimeErrors.NativeFailure>)
    returns (r: Result<Int16, PaletteError>)
    requires registry.Valid()
    requires PairCountConvertible(registry.capabilities, registry.cache, ThemeConfiguration(entries, role, paletteCapabilities))
    modifies registry
    ensures registry.Valid() && registry.capabilities == old(registry.capabilities)
    ensures role !in entries ==> r == Ok(DefaultPair) && registry.cache == old(registry.cache)
    ensures var e := Evaluate(old(registry.capabilities), old(registry.cache), old(registry.nextIdentifier),
                              ThemeConfiguration(entries, role, paletteCapabilities));
      match e
      case UseDefault =>
        r == Ok(DefaultPair) && registry.cache == old(registry.cache) &&
        registry.nextIdentifier == old(registry.nextIdentifier) && registry.initCalls == old(registry.initCalls)
      case Cached(p) =>
        r == Ok(p) && registry.cache == old(registry.cache) &&
        registry.nextIdentifier == old(registry.nextIdentifier) && registry.initCalls == old(registry.initCalls)
      case OutOfPairs =>
        r == Err(CapacityExceeded) && registry.cache == old(registry.cache) &&
        registry.nextIdentifier == old(registry.nextIdentifier) && registry.initCalls == old(registry.initCalls)
      case Allocate(id, caps) =>
        registry.cache == old(registry.cache)[ThemeConfiguration(entries, role, paletteCapabilities) := id] &&
        registry.nextIdentifier == id + 1 &&
        registry.initCalls == old(registry.initCalls) + [InitArguments(id, ThemeConfiguration(entries, role, paletteCapabilities), caps)] &&
        r == (if native.Pass? then Ok(id) else Err(NcursesCallFailed(FailureCode(native.error))))
  {
    r := registry.Pair(ThemeConfiguration(entries, role, paletteCapabilities), native);
  }

  /** An allocation whose `init_pair` fails stays cached: asking again for
      red on blue returns identifier 1, and the only `init_pair` call ever
      made for it is the one that failed. */
  method FailedAllocationStaysCached()
    returns (registry: ColorPairRegistry, first: Result<Int16, PaletteError>, second: Result<Int16, PaletteError>)
    ensures first == Err(NcursesCallFailed(-1))
    ensures second == Ok(1)
    ensures registry.initCalls == [(1, 1, 4)]
  {
    registry := new ColorPairRegistry();
    registry.UpdateCapabilities(TerminalCapabilities(false, true, 8, 8, true, false, false));
    var redOnBlue := ColorPairConfiguration(Some(TerminalColor(1)), Some(TerminalColor(4)));
    first := registry.Pair(redOnBlue, Fail(RuntimeErrors.Foreign));
    second := registry.Pair(redOnBlue, Pass);
  }

  /** The sequence of the registry's test, against the rolled-back
      allocation: the failed request leaves no entry and no used identifier
      behind, the retry initialises pair 1, and a third request is served
      from the cache without another `init_pair`. */
  method FailedAllocationRollsBack()
    returns (registry: ColorPairRegistry, first: Result<Int16, PaletteError>, second: Result<Int16, PaletteError>,
             third: Result<Int16, PaletteError>)
    ensures first == Err(NcursesCallFailed(-1))
    ensures second == Ok(1) && third == Ok(1)
    ensures registry.initCalls == [(1, 1, 4), (1, 1, 4)]
    ensures registry.nextIdentifier == 2
  {
    registry := new ColorPairRegistry();
    registry.UpdateCapabilities(TerminalCapabilities(false, true, 8, 8, true, false, false));
    var redOnBlue := ColorPairConfiguration(Some(TerminalColor(1)), Some(TerminalColor(4)));
    first := registry.PairWithRollback(redOnBlue, Fail(RuntimeErrors.Foreign));
    assert registry.cache == map[];
    second := registry.PairWithRollback(redOnBlue, Pass);
    third := registry.PairWithRollback(redOnBlue, Fail(RuntimeErrors.Foreign));
  }
}
