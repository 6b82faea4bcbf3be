/**
 * Operating-system processes and job objects, reduced to the state the modelled
 * code reads and changes: a process's id, whether it has exited and with what
 * code, whether it was killed or released; a job's native handle and the
 * processes assigned to it.
 */
module Jobs {
  import opened Wrappers
  import opened Faults

  /** A started process. Its exit is the operating system's doing, reported through `Exit`. */
  class OsProcess {
    const id: int
    var hasExited: bool
    var exitCode: int
    /** Whether `Kill` was called on it. */
    var killed: bool
    /** Whether its handle was released by `Dispose`. */
    var disposed: bool

    constructor (id: int)
      ensures this.id == id && !hasExited && !killed && !disposed
    {
      this.id := id;
      hasExited := false;
      exitCode := 0;
      killed := false;
      disposed := false;
    }

    /** The process ends with `code`. */
    method Exit(code: int)
      modifies this`hasExited, this`exitCode
      ensures hasExited && exitCode == code
    {
      hasExited := true;
      exitCode := code;
    }

    /** `Process.Kill`: asks the system to end the process. */
    method Kill()
      modifies this`killed
      ensures killed
    {
      killed := true;
    }

    /** `Process.Dispose`: releases the process handle. */
    method Dispose()
      modifies this`disposed
      ensures disposed
    {
      disposed := true;
    }
  }

  /** A Windows job object. */
  class JobObject {
    /** The native handle; None once the job is disposed. */
    var handle: Option<nat>
    /** The processes assigned to the job. */
    var members: set<int>
    /** The processes ended by terminating the job. */
    var terminated: set<int>
    /** The native handles released, in order. */
    var released: seq<nat>

    /** `new JobObject()`: a job with a fresh valid handle and no processes. */
    constructor (h: nat)
      ensures handle == Some(h)
      ensures members == {} && terminated == {} && released == []
    {
      handle := Some(h);
      members := {};
      terminated := {};
      released := [];
    }

    /** `Dispose`: releases the handle and forgets it; once it is gone, a further call does nothing. */
    method Dispose()
      modifies this`handle, this`released
      ensures handle.None?
      ensures old(handle).Some? ==> released == old(released) + [old(handle).value]
      ensures old(handle).None? ==> released == old(released)
    {
      if handle.None? {
        return;
      }
      released := released + [handle.value];
      handle := None;
    }

    /**
     * `AssignProcessToJob(p)`: adds the process to the job. There is no disposed
     * check of its own: once the handle is gone, the interop marshaller refuses
     * the null SafeHandle with ArgumentNullException, and nothing is assigned.
     */
    method AssignProcessToJob(pid: int) returns (outcome: Outcome<Exception>)
      modifies this`members
      ensures handle.Some? ==> outcome == Pass && members == old(members) + {pid}
      ensures handle.None? ==> outcome == Fail(ArgumentNull("pHandle")) && members == old(members)
    {
      if handle.None? {
        return Fail(ArgumentNull("pHandle"));
      }
      members := members + {pid};
      outcome := Pass;
    }

    /** `TerminateProcesses`: ends every process of the job; a disposed job throws ObjectDisposedException. */
    method TerminateProcesses() returns (outcome: Outcome<Exception>)
      modifies this`terminated
      ensures handle.None? ==> outcome == Fail(ObjectDisposed("JobObject")) && terminated == old(terminated)
      ensures handle.Some? ==> outcome == Pass && terminated == old(terminated) + members
    {
      if handle.None? {
        return Fail(ObjectDisposed("JobObject"));
      }
      terminated := terminated + members;
      outcome := Pass;
    }
  }
}
