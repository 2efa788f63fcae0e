/** `TerminalRuntimeError` (Sources/SwiftCursesKit/Runtime/TerminalRuntimeError.swift)
    and the translation from what a native call throws, which
    WindowHandle.swift and TerminalRuntimeCoordinator.swift both apply. */
module RuntimeErrors {
  import opened CNCursesRuntime

  datatype TerminalRuntimeError = BootstrapFailed | AlreadyRunning | NcursesCallFailed(functionName: string, code: int)

  /** What a native call can throw: a `CNCursesRuntimeError`, or an error of
      any other type. */
  datatype NativeFailure = Known(error: RuntimeError) | Foreign

  /** The `catch` clauses around native calls: a failed call keeps its name
      and code, anything else is a bootstrap failure. */
  function Translate(f: NativeFailure): (r: TerminalRuntimeError)
    ensures r.NcursesCallFailed? <==> f.Known? && f.error.CallFailed?
    ensures r.NcursesCallFailed? ==> r.functionName == f.error.name && r.code == f.error.code
    ensures !r.NcursesCallFailed? ==> r == BootstrapFailed
  {
    match f
    case Known(CallFailed(name, code)) => NcursesCallFailed(name, code)
    case _ => BootstrapFailed
  }
}
