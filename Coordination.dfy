/**
 * The coordination state the sequencer and the accessibility service share:
 * the companion-object `AtomicBoolean`s and the `ConditionVariable` gate.
 *
 * `MainActivity` and `ListActivity` each declare their own companion with
 * these same five members and the same initial values, so a program holds
 * two independent `SharedFlags` objects. Atomic reads and writes are
 * modelled as plain field accesses: there are no threads in this model.
 */
module Coordination {
  import opened Wrappers

  /** The value of one companion's coordination members at one moment. */
  datatype Flags = Flags(
    loadingPkgList: bool,
    cleanAppCacheFinished: bool,
    cleanCacheFinished: bool,
    cleanCacheInterrupt: bool,
    gateOpen: bool)

  /** The outcome of one `block(timeout)` call: whether the gate was open when it returned, and the milliseconds it waited. */
  datatype BlockResult = BlockResult(signaled: bool, waited: nat)

  /**
   * `ConditionVariable.block(timeout)` on a gate that is open (`isOpen`) now, where
   * another party opens it `openAfter` milliseconds into the wait (or not at
   * all). An open gate lets the caller through at once; otherwise the caller
   * wakes when it is opened or when the timeout elapses, whichever is first.
   * `block(0)` would wait without a bound; the program only ever passes
   * 5000, so the timeout is positive here.
   */
  function BlockOutcome(isOpen: bool, timeout: nat, openAfter: Option<nat>): (r: BlockResult)
    requires timeout > 0
    ensures r.waited <= timeout
    ensures isOpen ==> r == BlockResult(true, 0)
    ensures r.signaled <==> isOpen || (openAfter.Some? && openAfter.value <= timeout)
    ensures !r.signaled ==> r.waited == timeout
  {
    if isOpen then BlockResult(true, 0)
    else
      match openAfter
      case Some(t) => if t <= timeout then BlockResult(true, t) else BlockResult(false, timeout)
      case None => BlockResult(false, timeout)
  }

  /**
   * `android.os.ConditionVariable`. No code in MainActivity.kt,
   * ListActivity.kt or AppCacheCleanerService2.kt calls `close()`, so the class offers no way back from being opened: once opened,
   * every later `Block` returns at once.
   */
  class ConditionVariable {
    var isOpen: bool

    /** `ConditionVariable()` starts closed. */
    constructor ()
      ensures !isOpen
    {
      isOpen := false;
    }

    method Open()
      modifies this
      ensures isOpen
    {
      isOpen := true;
    }

    /** `block(timeout)`, with the other party's `open()` supplied as an oracle. */
    method Block(timeout: nat, openAfter: Option<nat>) returns (r: BlockResult)
      requires timeout > 0
      modifies this
      ensures r == BlockOutcome(old(isOpen), timeout, openAfter)
      ensures isOpen == (old(isOpen) || r.signaled)
    {
      r := BlockOutcome(isOpen, timeout, openAfter);
      if r.signaled {
        isOpen := true;
      }
    }
  }

  /** The initial values both companions declare. */
  const InitialFlags := Flags(
    loadingPkgList := false,
    cleanAppCacheFinished := false,
    cleanCacheFinished := true,
    cleanCacheInterrupt := false,
    gateOpen := false)

  /** One companion object's coordination members. */
  class SharedFlags {
    var loadingPkgList: bool
    var cleanAppCacheFinished: bool
    var cleanCacheFinished: bool
    var cleanCacheInterrupt: bool
    const waitAccessibility: ConditionVariable

    function Snapshot(): Flags
      reads this, waitAccessibility
    {
      Flags(loadingPkgList, cleanAppCacheFinished, cleanCacheFinished,
            cleanCacheInterrupt, waitAccessibility.isOpen)
    }

    /**
     * The companion's initialisation: no run in progress (`cleanCacheFinished`
     * true), nothing else set, and a fresh closed gate.
     */
    constructor ()
      ensures fresh(waitAccessibility)
      ensures Snapshot() == InitialFlags
      ensures Snapshot().cleanCacheFinished && !Snapshot().cleanAppCacheFinished
      ensures !Snapshot().cleanCacheInterrupt && !Snapshot().loadingPkgList && !Snapshot().gateOpen
    {
      loadingPkgList := false;
      cleanAppCacheFinished := false;
      cleanCacheFinished := true;
      cleanCacheInterrupt := false;
      waitAccessibility := new ConditionVariable();
    }
  }
}
