/** `WindowHandle` (Sources/SwiftCursesKit/Runtime/Internal/WindowHandle.swift):
    a window descriptor with a `closed` flag that only ever becomes true.
    `destroyWindow` is an oracle whose outcome is a parameter. */
module WindowHandles {
  import opened Wrappers
  import opened RuntimeErrors

  /** A native window, identified by an opaque number. */
  type Descriptor = nat

  class WindowHandle {
    const descriptor: Option<Descriptor>
    const ownsLifecycle: bool
    var closed: bool
    /** The descriptors passed to `destroyWindow`, in call order. */
    var destroyCalls: seq<Descriptor>

    /** Only an owned window with a descriptor is ever destroyed, and only
        that descriptor. */
    ghost predicate Valid()
      reads this
    {
      forall d <- destroyCalls :: ownsLifecycle && descriptor == Some(d)
    }

    constructor(descriptor: Option<Descriptor>, ownsLifecycle: bool)
      ensures Valid() && !closed && destroyCalls == []
      ensures this.descriptor == descriptor && this.ownsLifecycle == ownsLifecycle
    {
      this.descriptor := descriptor;
      this.ownsLifecycle := ownsLifecycle;
      closed := false;
      destroyCalls := [];
    }

    /** `isClosed`. */
    function IsClosed(): (r: bool)
      reads this
      ensures r == closed
    {
      closed
    }

    /** `close()`: nothing happens once closed; an owned window with a
        descriptor is destroyed first, and a failed destroy is reported and
        leaves the handle open. */
    method Close(destroyResult: Outcome<NativeFailure>) returns (r: Outcome<TerminalRuntimeError>)
      requires Valid()
      modifies this
      ensures Valid()
      ensures old(closed) ==> r == Pass && closed && destroyCalls == old(destroyCalls)
      ensures !old(closed) && !(ownsLifecycle && descriptor.Some?) ==>
        r == Pass && closed && destroyCalls == old(destroyCalls)
      ensures !old(closed) && ownsLifecycle && descriptor.Some? ==>
        destroyCalls == old(destroyCalls) + [descriptor.value] &&
        (destroyResult.Pass? ==> r == Pass && closed) &&
        (destroyResult.Fail? ==> r == Fail(Translate(destroyResult.error)) && !closed)
    {
      if closed {
        return Pass;
      }
      if ownsLifecycle && descriptor.Some? {
        destroyCalls := destroyCalls + [descriptor.value];
        if destroyResult.Fail? {
          return Fail(Translate(destroyResult.error));
        }
      }
      closed := true;
      r := Pass;
    }

    /** `closeSilently()`: `close()` with its error dropped. */
    method CloseSilently(destroyResult: Outcome<NativeFailure>)
      requires Valid()
      modifies this
      ensures Valid()
      ensures old(closed) ==> closed && destroyCalls == old(destroyCalls)
      ensures !old(closed) && !(ownsLifecycle && descriptor.Some?) ==>
        closed && destroyCalls == old(destroyCalls)
      ensures !old(closed) && ownsLifecycle && descriptor.Some? ==>
        destroyCalls == old(destroyCalls) + [descriptor.value] && (closed <==> destroyResult.Pass?)
    {
      var _ := Close(destroyResult);
    }

    /** `markClosed()`: closes the handle without destroying anything. */
    method MarkClosed()
      requires Valid()
      modifies this
      ensures Valid() && closed && destroyCalls == old(destroyCalls)
    {
      closed := true;
    }

    /** `withDescriptor`: the body's result when there is a descriptor, nil
        otherwise, whether or not the handle is closed. */
    function WithDescriptor<T>(body: Descriptor -> T): (r: Option<T>)
      ensures r.None? <==> descriptor.None?
      ensures r.Some? ==> r.value == body(descriptor.value)
    {
      match descriptor
      case None => None
      case Some(d) => Some(body(d))
    }
  }

  /** A handle marked closed reports itself closed from then on: closing it
      again, loudly or silently, passes without destroying anything, whatever
      the native destroy would have answered. */
  method ClosedStaysClosed(descriptor: Option<Descriptor>, ownsLifecycle: bool, destroyResult: Outcome<NativeFailure>)
    returns (handle: WindowHandle, r: Outcome<TerminalRuntimeError>)
    ensures handle.IsClosed() && handle.destroyCalls == [] && r == Pass
  {
    handle := new WindowHandle(descriptor, ownsLifecycle);
    handle.MarkClosed();
    r := handle.Close(destroyResult);
    handle.CloseSilently(destroyResult);
  }

  /** Closing an owned window twice destroys it once. */
  method CloseDestroysOnce(d: Descriptor) returns (handle: WindowHandle)
    ensures handle.closed && handle.destroyCalls == [d]
  {
    handle := new WindowHandle(Some(d), true);
    var first := handle.Close(Pass);
    var second := handle.Close(Pass);
  }
}
