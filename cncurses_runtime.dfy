/** The ncurses runtime state (Sources/CNCursesSupport/Swift/Runtime.swift):
    bootstrapping and shutting down the process-wide screen, the checked
    call wrapper and the runtime's error type. Every native call (`isatty`,
    `setlocale`, `initscr`, the six preparation calls, `endwin`) is an
    oracle whose result is a parameter. */
module CNCursesRuntime {
  import opened Wrappers

  /** `CNCursesRuntimeError`. */
  datatype RuntimeError = LocaleUnavailable | InitializationFailed | CallFailed(name: string, code: int)

  /** The hand-written `==` of `CNCursesRuntimeError`: call failures compare
      code and name, the other cases are equal only to themselves. */
  predicate SameError(a: RuntimeError, b: RuntimeError)
  {
    match (a, b)
    case (LocaleUnavailable, LocaleUnavailable) => true
    case (InitializationFailed, InitializationFailed) => true
    case (CallFailed(n, c), CallFailed(m, d)) => c == d && n == m
    case _ => false
  }

  /** The hand-written equality agrees with structural equality. */
  lemma SameErrorIsEquality(a: RuntimeError, b: RuntimeError)
    ensures SameError(a, b) <==> a == b
  {
  }

  /** curses' `OK`. */
  const OK: int := 0

  /** `CNCursesCall.check`: succeeds exactly on `OK`, and otherwise fails
      with the call's name and result code. */
  function Check(result: int, name: string): (r: Outcome<RuntimeError>)
    ensures r.Pass? <==> result == OK
    ensures r.Fail? ==> r.error == CallFailed(name, result)
  {
    if result == OK then Pass else Fail(CallFailed(name, result))
  }

  /** The calls `prepareForInteractiveUse` makes, in order. */
  const PreparationCalls: seq<string> := ["cbreak", "noecho", "keypad", "nodelay", "erase", "refresh"]

  /** The index of the first preparation call whose result is not `OK`. */
  function FirstFailure(results: seq<int>): (r: Option<nat>)
    ensures r.None? <==> forall i :: 0 <= i < |results| ==> results[i] == OK
    ensures r.Some? ==>
      r.value < |results| && results[r.value] != OK && forall i :: 0 <= i < r.value ==> results[i] == OK
  {
    if |results| == 0 then None
    else if results[0] != OK then Some(0)
    else match FirstFailure(results[1..])
      case None => None
      case Some(i) => Some(i + 1)
  }

  /** `prepareForInteractiveUse`: the checked calls in order, stopping at the
      first failure and reporting it. */
  function Prepare(results: seq<int>): (r: Outcome<RuntimeError>)
    requires |results| == |PreparationCalls|
  {
    match FirstFailure(results)
    case None => Pass
    case Some(i) => Check(results[i], PreparationCalls[i])
  }

  /** The preparation calls that are made: up to and including the first
      one that fails. */
  function PreparationCallsMade(results: seq<int>): (r: seq<string>)
    requires |results| == |PreparationCalls|
    ensures match FirstFailure(results)
      case None => r == PreparationCalls
      case Some(i) => r == PreparationCalls[..i + 1]
  {
    match FirstFailure(results)
    case None => PreparationCalls
    case Some(i) => PreparationCalls[..i + 1]
  }

  /** Preparation fails exactly when some call does, with the first failing
      call's name and code. */
  lemma PrepareReportsFirstFailure(results: seq<int>, i: nat)
    requires |results| == |PreparationCalls|
    requires i < |results| && results[i] != OK
    requires forall j :: 0 <= j < i ==> results[j] == OK
    ensures Prepare(results) == Fail(CallFailed(PreparationCalls[i], results[i]))
    ensures PreparationCallsMade(results) == PreparationCalls[..i + 1]
  {
  }

  /** What the native layer answers during one `bootstrap`. */
  datatype BootstrapEnvironment = BootstrapEnvironment(
    interactive: bool, localeAvailable: bool, initscrSucceeds: bool, preparationResults: seq<int>)

  /** `CNCursesRuntimeState`: whether a screen exists, the headless flag,
      whether the exit hook is in place, and the log of `endwin` calls and
      hook registrations the state has made. */
  class RuntimeState {
    var hasScreen: bool
    var isHeadless: bool
    var exitHookRegistered: bool
    var exitHookRegistrations: nat
    var endwinCalls: nat

    /** The screen and the headless flag are never set together, and the
        hook is registered at most once, and only ever set. */
    ghost predicate Valid()
      reads this
    {
      !(hasScreen && isHeadless) &&
      exitHookRegistrations == (if exitHookRegistered then 1 else 0)
    }

    constructor()
      ensures Valid() && !hasScreen && !isHeadless && !exitHookRegistered
      ensures exitHookRegistrations == 0 && endwinCalls == 0
    {
      hasScreen := false;
      isHeadless := false;
      exitHookRegistered := false;
      exitHookRegistrations := 0;
      endwinCalls := 0;
    }

    /** `bootstrap()`: nothing to do when a screen exists or the runtime is
        headless; a non-interactive terminal makes it headless; otherwise the
        locale and `initscr` must succeed, and a failed preparation calls
        `endwin` and leaves no screen. Success stores the screen and
        registers the exit hook once. */
    method Bootstrap(env: BootstrapEnvironment) returns (r: Outcome<RuntimeError>)
      requires Valid() && |env.preparationResults| == |PreparationCalls|
      modifies this
      ensures Valid()
      ensures old(hasScreen) || old(isHeadless) ==>
        r == Pass && hasScreen == old(hasScreen) && isHeadless == old(isHeadless) &&
        exitHookRegistered == old(exitHookRegistered) && endwinCalls == old(endwinCalls)
      ensures !old(hasScreen) && !old(isHeadless) && !env.interactive ==>
        r == Pass && isHeadless && !hasScreen && exitHookRegistered == old(exitHookRegistered) &&
        endwinCalls == old(endwinCalls)
      ensures !old(hasScreen) && !old(isHeadless) && env.interactive ==>
        !isHeadless && r == BootstrapOutcome(env) && (hasScreen <==> r.Pass?) &&
        exitHookRegistered == (old(exitHookRegistered) || r.Pass?) &&
        endwinCalls == old(endwinCalls) + (if FailsInPreparation(env) then 1 else 0)
    {
      if hasScreen || isHeadless {
        return Pass;
      }
      if !env.interactive {
        isHeadless := true;
        return Pass;
      }
      if !env.localeAvailable {
        return Fail(LocaleUnavailable);
      }
      if !env.initscrSucceeds {
        return Fail(InitializationFailed);
      }
      var prepared := Prepare(env.preparationResults);
      if prepared.Fail? {
        endwinCalls := endwinCalls + 1;
        return prepared;
      }
      hasScreen := true;
      RegisterExitHookIfNeeded();
      r := Pass;
    }

    /** `registerExitHookIfNeeded()`. */
    method RegisterExitHookIfNeeded()
      requires Valid()
      modifies this
      ensures Valid() && exitHookRegistered
      ensures hasScreen == old(hasScreen) && isHeadless == old(isHeadless) && endwinCalls == old(endwinCalls)
    {
      if exitHookRegistered {
        return;
      }
      exitHookRegistrations := exitHookRegistrations + 1;
      exitHookRegistered := true;
    }

    /** `shutdown()`: a headless runtime only clears its flag; with no
        screen nothing happens; otherwise `endwin` is called and the screen
        is dropped only when it succeeds. */
    method Shutdown(endwinResult: int) returns (r: Outcome<RuntimeError>)
      requires Valid()
      modifies this
      ensures Valid() && !isHeadless && exitHookRegistered == old(exitHookRegistered)
      ensures old(isHeadless) ==> r == Pass && hasScreen == old(hasScreen) && endwinCalls == old(endwinCalls)
      ensures !old(isHeadless) && !old(hasScreen) ==> r == Pass && !hasScreen && endwinCalls == old(endwinCalls)
      ensures !old(isHeadless) && old(hasScreen) ==>
        r == Check(endwinResult, "endwin") && endwinCalls == old(endwinCalls) + 1 && (hasScreen <==> r.Fail?)
    {
      if isHeadless {
        isHeadless := false;
        return Pass;
      }
      if !hasScreen {
        return Pass;
      }
      endwinCalls := endwinCalls + 1;
      r := Check(endwinResult, "endwin");
      if r.Fail? {
        return;
      }
      hasScreen := false;
    }
  }

  /** Whether an interactive bootstrap gets as far as the preparation calls
      and one of them fails. */
  predicate FailsInPreparation(env: BootstrapEnvironment)
    requires |env.preparationResults| == |PreparationCalls|
  {
    env.localeAvailable && env.initscrSucceeds && Prepare(env.preparationResults).Fail?
  }

  /** The outcome of an interactive bootstrap from a fresh state. */
  function BootstrapOutcome(env: BootstrapEnvironment): (r: Outcome<RuntimeError>)
    requires |env.preparationResults| == |PreparationCalls|
    ensures r.Pass? <==> env.localeAvailable && env.initscrSucceeds && forall i :: 0 <= i < |PreparationCalls| ==> env.preparationResults[i] == OK
    ensures !env.localeAvailable ==> r == Fail(LocaleUnavailable)
    ensures env.localeAvailable && !env.initscrSucceeds ==> r == Fail(InitializationFailed)
  {
    if !env.localeAvailable then Fail(LocaleUnavailable)
    else if !env.initscrSucceeds then Fail(InitializationFailed)
    else Prepare(env.preparationResults)
  }

  /** Bootstrapping twice registers the exit hook at most once and
      leaves an existing screen alone. */
  method BootstrapIsIdempotent(state: RuntimeState, env: BootstrapEnvironment, again: BootstrapEnvironment)
    returns (first: Outcome<RuntimeError>, second: Outcome<RuntimeError>)
    requires state.Valid() && |env.preparationResults| == |PreparationCalls| && |again.preparationResults| == |PreparationCalls|
    modifies state
    ensures state.exitHookRegistrations <= 1
    ensures state.hasScreen ==> second == Pass
  {
    first := state.Bootstrap(env);
    second := state.Bootstrap(again);
  }
}
