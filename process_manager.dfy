/**
 * ProcessManager: the table of a container's processes keyed by process id, kept
 * up to date as processes are launched, exit or are found again after a restart,
 * and the statistics summed over the processes of the container's job.
 */
module ProcessTracking {
  import opened Wrappers
  import opened Json
  import opened Faults
  import opened Jobs
  import opened ProcessStatistics

  /** How an entry got into the table. */
  datatype Origin = Launched | Restored

  /** A tracked process: its id and where the entry came from. */
  datatype TrackedProcess = TrackedProcess(id: int, origin: Origin)

  /** An entry of `Process.GetProcesses()`: id, owning user and whether it has exited. */
  datatype SystemProcess = SystemProcess(id: int, userName: string, hasExited: bool)

  /** The statistics `GetProcessStats` reports. */
  datatype ProcessStats = ProcessStats(
    totalProcessorTime: int, totalUserProcessorTime: int,
    privateMemory: int, pagedMemory: int, workingSet: int)

  /** A running process of the container's user. */
  predicate MatchesUser(p: SystemProcess, containerUser: string)
  {
    p.userName == containerUser && !p.hasExited
  }

  /** `GetMatchingUserProcesses`: the running processes of the container's user, in system order. */
  function MatchingUserProcesses(all: seq<SystemProcess>, containerUser: string): (r: seq<SystemProcess>)
    ensures forall p :: p in r <==> p in all && MatchesUser(p, containerUser)
  {
    if |all| == 0 then []
    else
      var rest := MatchingUserProcesses(all[1..], containerUser);
      assert forall p :: p in all <==> p == all[0] || p in all[1..];
      if MatchesUser(all[0], containerUser) then [all[0]] + rest else rest
  }

  /** The table after `TryAdd` of each process in turn as a restored entry; an id already present keeps its entry. */
  function RestoreInto(table: map<int, TrackedProcess>, ps: seq<SystemProcess>): map<int, TrackedProcess>
  {
    if |ps| == 0 then table
    else
      var before := RestoreInto(table, ps[..|ps| - 1]);
      var p := ps[|ps| - 1];
      if p.id in before then before else before[p.id := TrackedProcess(p.id, Restored)]
  }

  /** Restoring never replaces an entry that was already tracked. */
  lemma {:induction false} RestoreKeepsEntries(table: map<int, TrackedProcess>, ps: seq<SystemProcess>)
    ensures forall pid :: pid in table ==> pid in RestoreInto(table, ps) && RestoreInto(table, ps)[pid] == table[pid]
  {
    if |ps| > 0 {
      RestoreKeepsEntries(table, ps[..|ps| - 1]);
    }
  }

  /** After restoring, exactly the ids tracked before and the ids of the restored processes are tracked. */
  lemma {:induction false} RestoreTracks(table: map<int, TrackedProcess>, ps: seq<SystemProcess>)
    ensures forall pid :: pid in RestoreInto(table, ps) <==> pid in table || exists p :: p in ps && p.id == pid
  {
    if |ps| > 0 {
      var init := ps[..|ps| - 1];
      RestoreTracks(table, init);
      assert forall p :: p in ps <==> p in init || p == ps[|ps| - 1];
    }
  }

  /** An id added by restoring is marked as restored. */
  lemma {:induction false} RestoredEntries(table: map<int, TrackedProcess>, ps: seq<SystemProcess>)
    ensures forall pid :: pid in RestoreInto(table, ps) && pid !in table ==>
      RestoreInto(table, ps)[pid] == TrackedProcess(pid, Restored)
  {
    if |ps| > 0 {
      RestoredEntries(table, ps[..|ps| - 1]);
    }
  }

  /** A table has a positive count exactly when some id is in it. */
  lemma TableNonEmpty(table: map<int, TrackedProcess>)
    ensures |table| > 0 <==> exists pid :: pid in table
  {
    if forall pid :: pid !in table {
      assert table.Keys == {};
    } else {
      var pid :| pid in table;
      assert |table.Keys - {pid}| + 1 == |table.Keys|;
    }
  }

  /** The message of the exception for an id already tracked. */
  function AlreadyTrackedMessage(pid: int): string
  {
    "A process with the id " + IntText(pid) + " is already being tracked."
  }

  class ProcessManager {
    const containerUser: string
    const job: JobObject
    /** `processes`: the tracked processes keyed by id. */
    var processes: map<int, TrackedProcess>
    /** The ids whose Exited event the manager is subscribed to. */
    var exitSubscriptions: set<int>

    constructor (job: JobObject, containerUser: string)
      ensures this.job == job && this.containerUser == containerUser
      ensures processes == map[] && exitSubscriptions == {}
    {
      this.job := job;
      this.containerUser := containerUser;
      processes := map[];
      exitSubscriptions := {};
    }

    /** `HasProcesses`: some process is tracked. */
    function HasProcesses(): (r: bool)
      reads this
      ensures r <==> exists pid :: pid in processes
    {
      TableNonEmpty(processes);
      |processes| > 0
    }

    /** `ContainsProcess(pid)`: the id is tracked. */
    function ContainsProcess(pid: int): (r: bool)
      reads this
      ensures r <==> pid in processes.Keys
    {
      pid in processes
    }

    /**
     * `CreateProcess`: `launched` is what the launcher gave back, a process id or
     * the exception it threw. A new id is tracked and its exit watched; an id
     * already tracked throws InvalidOperationException with the table unchanged.
     */
    method CreateProcess(launched: Result<int, Exception>) returns (r: Result<int, Exception>)
      modifies this`processes, this`exitSubscriptions
      ensures launched.Failure? ==> r == launched && processes == old(processes) && exitSubscriptions == old(exitSubscriptions)
      ensures launched.Success? && launched.value in old(processes) ==>
        r == Failure(InvalidOperation(AlreadyTrackedMessage(launched.value)))
        && processes == old(processes) && exitSubscriptions == old(exitSubscriptions)
      ensures launched.Success? && launched.value !in old(processes) ==>
        r == launched
        && processes == old(processes)[launched.value := TrackedProcess(launched.value, Launched)]
        && exitSubscriptions == old(exitSubscriptions) + {launched.value}
    {
      if launched.Failure? {
        return launched;
      }
      var pid := launched.value;
      if pid in processes {
        return Failure(InvalidOperation(AlreadyTrackedMessage(pid)));
      }
      processes := processes[pid := TrackedProcess(pid, Launched)];
      exitSubscriptions := exitSubscriptions + {pid};
      r := launched;
    }

    /** `RemoveProcess(pid)`: forgets that id only. */
    method RemoveProcess(pid: int)
      modifies this`processes
      ensures processes == old(processes) - {pid}
    {
      if pid in processes {
        processes := processes - {pid};
      }
    }

    /** The Exited handler: unsubscribes from the process and forgets its id. */
    method OnProcessExited(pid: int)
      modifies this`processes, this`exitSubscriptions
      ensures exitSubscriptions == old(exitSubscriptions) - {pid}
      ensures processes == old(processes) - {pid}
    {
      exitSubscriptions := exitSubscriptions - {pid};
      RemoveProcess(pid);
    }

    /** `RestoreProcesses`: tracks each running process of the container's user that is not tracked yet. */
    method RestoreProcesses(all: seq<SystemProcess>)
      modifies this`processes
      ensures processes == RestoreInto(old(processes), MatchingUserProcesses(all, containerUser))
    {
      var matching := MatchingUserProcesses(all, containerUser);
      var i := 0;
      while i < |matching|
        invariant 0 <= i <= |matching|
        invariant processes == RestoreInto(old(processes), matching[..i])
      {
        var p := matching[i];
        assert matching[..i + 1][..i] == matching[..i];
        if p.id !in processes {
          processes := processes[p.id := TrackedProcess(p.id, Restored)];
        }
        i := i + 1;
      }
      assert matching[..|matching|] == matching;
    }

    /** `StopProcesses`: terminates the job. The list cleared afterwards is a copy, so the table is unchanged. */
    method StopProcesses() returns (outcome: Outcome<Exception>)
      modifies job`terminated
      ensures job.handle.None? ==> outcome == Fail(ObjectDisposed("JobObject")) && job.terminated == old(job.terminated)
      ensures job.handle.Some? ==> outcome == Pass && job.terminated == old(job.terminated) + job.members
    {
      outcome := job.TerminateProcesses();
    }

    /** `Dispose`: disposes the job, releasing its handle once. */
    method Dispose()
      modifies job`handle, job`released
      ensures job.handle.None?
      ensures old(job.handle).Some? ==> job.released == old(job.released) + [old(job.handle).value]
      ensures old(job.handle).None? ==> job.released == old(job.released)
    {
      job.Dispose();
    }
  }

  /**
   * `GetProcessStats`: the processor time is kernel plus user time; the memory
   * totals are summed, with 64-bit wrap-around, over the job's processes still
   * found, where `ids` are the job's process ids and `running` the processes the
   * system still knows.
   */
  method GetProcessStats(cpu: CpuStatistics, ids: seq<int>, running: map<int, ProcessSample>) returns (r: Result<ProcessStats, Exception>)
    ensures AddTimes(cpu.totalKernelTime, cpu.totalUserTime).Failure? ==> r == Failure(Overflow)
    ensures r.Success? ==>
      var found := Found(ids, running);
      r.value.totalProcessorTime == cpu.totalKernelTime + cpu.totalUserTime
      && r.value.totalUserProcessorTime == cpu.totalUserTime
      && r.value.privateMemory == WrapInt64(Total(found, PrivateMemory))
      && r.value.pagedMemory == WrapInt64(Total(found, PagedMemory))
      && r.value.workingSet == WrapInt64(Total(found, WorkingSet))
    ensures AddTimes(cpu.totalKernelTime, cpu.totalUserTime).Success? ==> r.Success?
  {
    var processes := Found(ids, running);
    var privateMemory, pagedMemory, workingSet := 0, 0, 0;
    var i := 0;
    while i < |processes|
      invariant 0 <= i <= |processes|
      invariant privateMemory == WrapInt64(Total(processes[..i], PrivateMemory))
      invariant pagedMemory == WrapInt64(Total(processes[..i], PagedMemory))
      invariant workingSet == WrapInt64(Total(processes[..i], WorkingSet))
    {
      var p := processes[i];
      assert processes[..i + 1][..i] == processes[..i];
      WrapInt64Add(Total(processes[..i], PrivateMemory), p.privateMemoryBytes);
      WrapInt64Add(Total(processes[..i], PagedMemory), p.pagedMemoryBytes);
      WrapInt64Add(Total(processes[..i], WorkingSet), p.workingSet);
      privateMemory := WrapInt64(privateMemory + p.privateMemoryBytes);
      pagedMemory := WrapInt64(pagedMemory + p.pagedMemoryBytes);
      workingSet := WrapInt64(workingSet + p.workingSet);
      i := i + 1;
    }
    assert processes[..|processes|] == processes;
    var total := AddTimes(cpu.totalKernelTime, cpu.totalUserTime);
    if total.Failure? {
      return Failure(total.error);
    }
    r := Success(ProcessStats(total.value, cpu.totalUserTime, privateMemory, pagedMemory, workingSet));
  }

  /** `ProcessManager(job, launcher, containerUser)`: a null user throws ArgumentNullException before anything is set. */
  method NewProcessManager(job: JobObject, containerUser: Option<string>) returns (r: Result<ProcessManager, Exception>)
    ensures containerUser.None? ==> r == Failure(ArgumentNull("containerUser"))
    ensures containerUser.Some? ==>
      r.Success? && fresh(r.value) && r.value.job == job && r.value.containerUser == containerUser.value
      && r.value.processes == map[] && r.value.exitSubscriptions == {}
  {
    if containerUser.None? {
      return Failure(ArgumentNull("containerUser"));
    }
    var m := new ProcessManager(job, containerUser.value);
    r := Success(m);
  }
}
