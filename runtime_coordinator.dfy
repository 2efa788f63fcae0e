/** `TerminalRuntimeCoordinator`
    (Sources/SwiftCursesKit/Runtime/Internal/TerminalRuntimeCoordinator.swift):
    starting the runtime, the frame loop of `run`, `requestShutdown` and
    `stop`. The frame handler, the process-wide ncurses runtime's native
    calls and `standardScreen` are oracles whose answers are parameters. */
module RuntimeCoordination {
  import opened Wrappers
  import opened CNCursesRuntime
  import opened RuntimeErrors
  import opened WindowHandles

  /** What the native layer answers while the runtime starts: the bootstrap
      answers, the standard screen (none when `stdscr` is nil), and the
      `endwin` result of the clean-up after a missing standard screen. */
  datatype StartEnvironment = StartEnvironment(
    bootstrap: BootstrapEnvironment, standardScreen: Option<Descriptor>, cleanupEndwinResult: int)

  /** What one call of the frame handler does: whether the application asks
      for a shutdown during the frame, and whether the handler returns true,
      returns false or throws. */
  datatype FrameResult = ContinueFrames | StopFrames | Throws(code: int)

  datatype Frame = Frame(requestsShutdown: bool, result: FrameResult)

  /** An error `run` reports: the runtime's own, or one the frame handler
      threw. */
  datatype RunError = Runtime(error: TerminalRuntimeError) | Application(code: int)

  /** Whether the loop ends after this frame. */
  predicate EndsLoop(f: Frame)
  {
    f.requestsShutdown || !f.result.ContinueFrames?
  }

  /** Whether some frame ends the loop. */
  predicate LoopEnds(frames: seq<Frame>)
  {
    exists k :: 0 <= k < |frames| && EndsLoop(frames[k])
  }

  /** The index of the frame after which the loop ends. */
  function LastFrame(frames: seq<Frame>): (k: nat)
    requires LoopEnds(frames)
    ensures k < |frames| && EndsLoop(frames[k])
    ensures forall j :: 0 <= j < k ==> !EndsLoop(frames[j])
  {
    if EndsLoop(frames[0]) then 0
    else
      assert LoopEnds(frames[1..]) by {
        var k :| 0 <= k < |frames| && EndsLoop(frames[k]);
        assert k > 0 && EndsLoop(frames[1..][k - 1]);
      }
      1 + LastFrame(frames[1..])
  }

  /** The error the loop captures: the one the last frame threw, if any. */
  function LoopError(frames: seq<Frame>): (r: Option<RunError>)
    requires LoopEnds(frames)
    ensures r.Some? <==> frames[LastFrame(frames)].result.Throws?
  {
    match frames[LastFrame(frames)].result
    case Throws(code) => Some(Application(code))
    case _ => None
  }

  /** `run`'s error precedence: the loop's error wins, and the stop error is
      reported only when the loop succeeded. */
  function FirstErrorWins(loopError: Option<RunError>, stopResult: Outcome<TerminalRuntimeError>): (r: Outcome<RunError>)
    ensures loopError.Some? ==> r == Fail(loopError.value)
    ensures loopError.None? ==> (r.Pass? <==> stopResult.Pass?)
    ensures loopError.None? && stopResult.Fail? ==> r == Fail(Runtime(stopResult.error))
  {
    if loopError.Some? then Fail(loopError.value)
    else if stopResult.Fail? then Fail(Runtime(stopResult.error))
    else Pass
  }

  /** `shouldStop` set by the application ends the loop after that frame,
      without an error unless that frame also threw. */
  lemma ShutdownRequestEndsLoop(frames: seq<Frame>, k: nat)
    requires k < |frames| && frames[k].requestsShutdown
    requires forall j :: 0 <= j < k ==> !EndsLoop(frames[j])
    ensures LoopEnds(frames) && LastFrame(frames) == k
    ensures LoopError(frames).Some? <==> frames[k].result.Throws?
  {
    assert EndsLoop(frames[k]);
  }

  /** What `bootstrap()` reports for a runtime in the given state: nothing
      to do with a screen or when headless, headless on a non-interactive
      terminal, and otherwise the interactive bootstrap's outcome. */
  function BootResult(hasScreen: bool, isHeadless: bool, env: BootstrapEnvironment): (r: Outcome<RuntimeError>)
    requires |env.preparationResults| == |PreparationCalls|
    ensures r.Fail? ==> !hasScreen && !isHeadless && env.interactive && r == BootstrapOutcome(env)
  {
    if hasScreen || isHeadless || !env.interactive then Pass else BootstrapOutcome(env)
  }

  /** Whether the runtime is headless once `bootstrap()` has passed. */
  predicate HeadlessAfterBoot(hasScreen: bool, isHeadless: bool, env: BootstrapEnvironment)
  {
    isHeadless || (!hasScreen && !env.interactive)
  }

  /** The error `start()` reports when the coordinator is not running yet:
      the translated bootstrap error, or `bootstrapFailed` for an
      interactive runtime without a standard screen; none otherwise. */
  function StartError(hasScreen: bool, isHeadless: bool, env: StartEnvironment): (r: Option<TerminalRuntimeError>)
    requires |env.bootstrap.preparationResults| == |PreparationCalls|
    ensures HeadlessAfterBoot(hasScreen, isHeadless, env.bootstrap) ==> r.None?
    ensures r.None? && !HeadlessAfterBoot(hasScreen, isHeadless, env.bootstrap) ==> env.standardScreen.Some?
  {
    var boot := BootResult(hasScreen, isHeadless, env.bootstrap);
    if boot.Fail? then Some(Translate(Known(boot.error)))
    else if HeadlessAfterBoot(hasScreen, isHeadless, env.bootstrap) then None
    else if env.standardScreen.None? then Some(BootstrapFailed)
    else None
  }

  class Coordinator {
    const runtime: RuntimeState
    var isRunning: bool
    var shouldStop: bool
    var screenHandle: WindowHandle?

    /** Running exactly while a screen handle is held. */
    ghost predicate Valid()
      reads this, runtime, screenHandle
    {
      runtime.Valid() && (isRunning <==> screenHandle != null) &&
      (screenHandle != null ==> screenHandle.Valid() && !screenHandle.ownsLifecycle)
    }

    constructor(runtime: RuntimeState)
      requires runtime.Valid()
      ensures Valid() && this.runtime == runtime && !isRunning && !shouldStop && screenHandle == null
    {
      this.runtime := runtime;
      isRunning := false;
      shouldStop := false;
      screenHandle := null;
    }

    /** `requestShutdown()`. */
    method RequestShutdown()
      requires Valid()
      modifies this
      ensures Valid() && shouldStop
      ensures isRunning == old(isRunning) && screenHandle == old(screenHandle)
    {
      shouldStop := true;
    }

    /** `shouldContinueRunning()`. */
    function ShouldContinueRunning(): (r: bool)
      reads this
      ensures r <==> !shouldStop
    {
      !shouldStop
    }

    /** `start()`: refuses while running; a failed bootstrap is translated
        and leaves the coordinator stopped; a headless runtime gets a handle
        without a descriptor; a missing standard screen shuts the runtime
        down again and fails. */
    method Start(env: StartEnvironment) returns (r: Result<WindowHandle, TerminalRuntimeError>)
      requires Valid() && |env.bootstrap.preparationResults| == |PreparationCalls|
      modifies this, runtime
      ensures Valid()
      ensures old(isRunning) ==>
        r == Err(AlreadyRunning) && isRunning && shouldStop == old(shouldStop) && screenHandle == old(screenHandle)
      ensures old(isRunning) ==>
        runtime.hasScreen == old(runtime.hasScreen) && runtime.isHeadless == old(runtime.isHeadless) &&
        runtime.endwinCalls == old(runtime.endwinCalls)
      ensures !old(isRunning) ==>
        (r.Err? <==> StartError(old(runtime.hasScreen), old(runtime.isHeadless), env).Some?)
      ensures !old(isRunning) && r.Err? ==>
        r.error == StartError(old(runtime.hasScreen), old(runtime.isHeadless), env).value &&
        !isRunning && shouldStop == old(shouldStop) && screenHandle == null
      ensures !old(isRunning) && BootResult(old(runtime.hasScreen), old(runtime.isHeadless), env.bootstrap).Pass? &&
              !HeadlessAfterBoot(old(runtime.hasScreen), old(runtime.isHeadless), env.bootstrap) &&
              env.standardScreen.None? ==>
        runtime.endwinCalls == old(runtime.endwinCalls) + 1 &&
        (runtime.hasScreen <==> env.cleanupEndwinResult != OK)
      ensures r.Ok? ==>
        fresh(r.value) && isRunning && !shouldStop && screenHandle == r.value && !r.value.closed &&
        r.value.destroyCalls == [] && (r.value.descriptor.None? <==> runtime.isHeadless) &&
        runtime.isHeadless == HeadlessAfterBoot(old(runtime.hasScreen), old(runtime.isHeadless), env.bootstrap) &&
        (runtime.hasScreen <==> !runtime.isHeadless) &&
        (!runtime.isHeadless ==> r.value.descriptor == env.standardScreen)
    {
      if isRunning {
        return Err(AlreadyRunning);
      }
      var booted := runtime.Bootstrap(env.bootstrap);
      if booted.Fail? {
        return Err(Translate(Known(booted.error)));
      }
      if runtime.isHeadless {
        var handle := new WindowHandle(None, false);
        screenHandle := handle;
        shouldStop := false;
        isRunning := true;
        return Ok(handle);
      }
      if env.standardScreen.None? {
        var _ := runtime.Shutdown(env.cleanupEndwinResult);
        return Err(BootstrapFailed);
      }
      var handle := new WindowHandle(env.standardScreen, false);
      screenHandle := handle;
      shouldStop := false;
      isRunning := true;
      r := Ok(handle);
    }

    /** `stop()`: the coordinator is reset and the handle marked closed
        before the runtime shuts down, so the reset happens even when the
        shutdown fails. */
    method Stop(endwinResult: int) returns (r: Outcome<TerminalRuntimeError>)
      requires Valid()
      modifies this, runtime, screenHandle
      ensures Valid() && !isRunning && !shouldStop && screenHandle == null
      ensures old(screenHandle) != null ==> old(screenHandle).closed
      ensures old(screenHandle) != null ==> old(screenHandle).destroyCalls == old(screenHandle.destroyCalls)
      ensures r.Fail? <==> !old(runtime.isHeadless) && old(runtime.hasScreen) && endwinResult != OK
      ensures r.Fail? ==> r.error == NcursesCallFailed("endwin", endwinResult)
    {
      var handle := screenHandle;
      screenHandle := null;
      shouldStop := false;
      isRunning := false;
      if handle != null {
        handle.MarkClosed();
      }
      var shut := runtime.Shutdown(endwinResult);
      if shut.Fail? {
        return Fail(Translate(Known(shut.error)));
      }
      r := Pass;
    }

    /** `run(app:)`: start, call the frame handler until it returns false,
        throws or a shutdown is requested, then always stop; the loop's error
        wins over the stop's. `framesRun` counts the frame handler calls and
        `stopResult` is what `stop()` reported. */
    method Run(env: StartEnvironment, frames: seq<Frame>, stopEndwinResult: int)
      returns (r: Outcome<RunError>, framesRun: nat, stopResult: Outcome<TerminalRuntimeError>)
      requires Valid() && |env.bootstrap.preparationResults| == |PreparationCalls|
      requires LoopEnds(frames)
      modifies this, runtime, screenHandle
      ensures Valid()
      ensures old(isRunning) ==> r == Fail(Runtime(AlreadyRunning)) && framesRun == 0 && isRunning
      ensures framesRun == 0 ==> r.Fail? && r.error.Runtime?
      ensures !old(isRunning) ==>
        (framesRun > 0 <==> StartError(old(runtime.hasScreen), old(runtime.isHeadless), env).None?)
      ensures !old(isRunning) && framesRun == 0 ==>
        r == Fail(Runtime(StartError(old(runtime.hasScreen), old(runtime.isHeadless), env).value))
      ensures framesRun == 0 ==> stopResult == Pass
      ensures framesRun > 0 ==>
        framesRun == LastFrame(frames) + 1 && !isRunning && !shouldStop && screenHandle == null &&
        r == FirstErrorWins(LoopError(frames), stopResult)
      ensures framesRun > 0 ==>
        (stopResult.Fail? <==>
          !HeadlessAfterBoot(old(runtime.hasScreen), old(runtime.isHeadless), env.bootstrap) && stopEndwinResult != OK)
      ensures stopResult.Fail? ==> stopResult.error == NcursesCallFailed("endwin", stopEndwinResult)
    {
      var started := Start(env);
      if started.Err? {
        return Fail(Runtime(started.error)), 0, Pass;
      }
      ghost var headless, screen := runtime.isHeadless, runtime.hasScreen;
      var i := 0;
      var running := true;
      while running
        invariant Valid() && isRunning && screenHandle == started.value
        invariant runtime.isHeadless == headless && runtime.hasScreen == screen
        invariant 0 <= i <= LastFrame(frames) + 1
        invariant running ==> i <= LastFrame(frames) && !shouldStop
        invariant !running ==> i == LastFrame(frames) + 1
        decreases LastFrame(frames) + 1 - i
      {
        var frame := frames[i];
        if frame.requestsShutdown {
          RequestShutdown();
        }
        if frame.result.ContinueFrames? {
          running := ShouldContinueRunning();
        } else {
          running := false;
        }
        i := i + 1;
      }
      stopResult := Stop(stopEndwinResult);
      r := FirstErrorWins(LoopError(frames), stopResult);
      framesRun := i;
    }
  }

  /** A new coordinator keeps running until a shutdown is requested, after
      which it asks the loop to stop, and a second request changes nothing. */
  method ShutdownRequestIsSticky() returns (before: bool, after: bool, again: bool)
    ensures before && !after && !again
  {
    var runtime := new RuntimeState();
    var coordinator := new Coordinator(runtime);
    before := coordinator.ShouldContinueRunning();
    coordinator.RequestShutdown();
    after := coordinator.ShouldContinueRunning();
    coordinator.RequestShutdown();
    again := coordinator.ShouldContinueRunning();
  }
}
