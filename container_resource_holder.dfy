/**
 * ContainerResourceHolder: the resources a container owns (its job object, its
 * directory, its reserved port and its user account) and their teardown. The
 * collaborators are represented by the calls made on them and by the exception
 * each call throws, if any.
 */
module ResourceHolders {
  import opened Wrappers
  import opened Faults
  import opened WinPaths
  import opened Containers

  /** How long the teardown waits for the job's processes to end, in milliseconds. */
  const TerminateWaitTimeout := 2000

  /** A call the teardown makes on a collaborator. */
  datatype Step =
    | TerminateProcessesAndWait(timeout: int)
    | DisposeJob
    | DeleteDirectory
    | ReleaseLocalPort(port: int, userName: string)
    | DeleteUser

  /** The exception each collaborator call throws, if any. */
  datatype StepFaults = StepFaults(
    terminate: Option<Exception>,
    dispose: Option<Exception>,
    deleteDirectory: Option<Exception>,
    releasePort: Option<Exception>,
    deleteUser: Option<Exception>)

  /** The position of a step in the teardown order. */
  function Rank(s: Step): nat
  {
    match s
    case TerminateProcessesAndWait(_) => 0
    case DisposeJob => 1
    case DeleteDirectory => 2
    case ReleaseLocalPort(_, _) => 3
    case DeleteUser => 4
  }

  /** Each step comes after the ones before it in the teardown order, so none is repeated. */
  predicate InOrder(steps: seq<Step>)
  {
    forall i, j :: 0 <= i < j < |steps| ==> Rank(steps[i]) < Rank(steps[j])
  }

  /** A failure of directory deletion that the teardown does not catch: anything but an IOException. */
  predicate AbortsDeletion(deleteDirectories: bool, f: StepFaults)
  {
    deleteDirectories && f.deleteDirectory.Some? && !f.deleteDirectory.value.IO?
  }

  /** The teardown completes unless terminating or disposing the job, or deleting the directory, fails uncaught. */
  predicate Completes(deleteDirectories: bool, f: StepFaults)
  {
    f.terminate.None? && f.dispose.None? && !AbortsDeletion(deleteDirectories, f)
  }

  /** The directory deletion step, made only when directories are to be deleted. */
  function DeletionSteps(deleteDirectories: bool): seq<Step>
  {
    if deleteDirectories then [DeleteDirectory] else []
  }

  /** The port release step, made only when a port is assigned, with that port and the user's name. */
  function ReleaseSteps(assignedPort: Option<UInt16>, userName: string): seq<Step>
  {
    if assignedPort.Some? then [ReleaseLocalPort(assignedPort.value, userName)] else []
  }

  /**
   * `Destroy`: the calls made and how the teardown ends. Terminating and disposing
   * the job are not guarded, so their failures end it; an IOException from
   * directory deletion is swallowed and any other ends it; failures of port release
   * and user deletion are swallowed.
   */
  function Teardown(deleteDirectories: bool, assignedPort: Option<UInt16>, userName: string, f: StepFaults): (r: (seq<Step>, Outcome<Exception>))
    ensures r.1.Pass? <==> Completes(deleteDirectories, f)
    ensures r.1.Fail? ==> Some(r.1.error) in {f.terminate, f.dispose, f.deleteDirectory}
    ensures |r.0| > 0 && r.0[0] == TerminateProcessesAndWait(TerminateWaitTimeout)
  {
    var terminate := TerminateProcessesAndWait(TerminateWaitTimeout);
    if f.terminate.Some? then ([terminate], Fail(f.terminate.value))
    else if f.dispose.Some? then ([terminate, DisposeJob], Fail(f.dispose.value))
    else if AbortsDeletion(deleteDirectories, f) then ([terminate, DisposeJob, DeleteDirectory], Fail(f.deleteDirectory.value))
    else ([terminate, DisposeJob] + DeletionSteps(deleteDirectories) + ReleaseSteps(assignedPort, userName) + [DeleteUser], Pass)
  }

  /** The teardown makes its calls in order, each at most once. */
  lemma TeardownInOrder(deleteDirectories: bool, assignedPort: Option<UInt16>, userName: string, f: StepFaults)
    ensures InOrder(Teardown(deleteDirectories, assignedPort, userName, f).0)
  {
    var steps := Teardown(deleteDirectories, assignedPort, userName, f).0;
    var terminate := TerminateProcessesAndWait(TerminateWaitTimeout);
    if Completes(deleteDirectories, f) {
      if deleteDirectories && assignedPort.Some? {
        assert steps == [terminate, DisposeJob, DeleteDirectory, ReleaseLocalPort(assignedPort.value, userName), DeleteUser];
      } else if deleteDirectories {
        assert steps == [terminate, DisposeJob, DeleteDirectory, DeleteUser];
      } else if assignedPort.Some? {
        assert steps == [terminate, DisposeJob, ReleaseLocalPort(assignedPort.value, userName), DeleteUser];
      } else {
        assert steps == [terminate, DisposeJob, DeleteUser];
      }
    }
  }

  /**
   * A completed teardown deletes the user, deletes the directory exactly when
   * directories are to be deleted, and releases the assigned port, if any, under
   * the user's name; no teardown releases any other port or deletes the directory
   * when directories are to be kept.
   */
  lemma TeardownSteps(deleteDirectories: bool, assignedPort: Option<UInt16>, userName: string, f: StepFaults)
    ensures var r := Teardown(deleteDirectories, assignedPort, userName, f);
      r.1.Pass? ==> DeleteUser in r.0 && (DeleteDirectory in r.0 <==> deleteDirectories)
    ensures var r := Teardown(deleteDirectories, assignedPort, userName, f);
      r.1.Pass? && assignedPort.Some? ==> ReleaseLocalPort(assignedPort.value, userName) in r.0
    ensures var r := Teardown(deleteDirectories, assignedPort, userName, f);
      DeleteDirectory in r.0 ==> deleteDirectories
    ensures var r := Teardown(deleteDirectories, assignedPort, userName, f);
      forall k :: 0 <= k < |r.0| && r.0[k].ReleaseLocalPort? ==> assignedPort.Some? && r.0[k] == ReleaseLocalPort(assignedPort.value, userName)
  {
    var steps := Teardown(deleteDirectories, assignedPort, userName, f).0;
    var prefix := [TerminateProcessesAndWait(TerminateWaitTimeout), DisposeJob];
    if Completes(deleteDirectories, f) {
      assert steps == prefix + DeletionSteps(deleteDirectories) + ReleaseSteps(assignedPort, userName) + [DeleteUser];
      assert steps[|steps| - 1] == DeleteUser;
      if deleteDirectories {
        assert steps[2] == DeleteDirectory;
      }
      if assignedPort.Some? {
        assert steps[|steps| - 2] == ReleaseLocalPort(assignedPort.value, userName);
      }
    }
  }

  /** An IOException from directory deletion is swallowed: the port is still released and the user still deleted. */
  lemma DeletionIOFailureSwallowed(assignedPort: Option<UInt16>, userName: string, f: StepFaults, message: string)
    requires f.terminate.None? && f.dispose.None? && f.deleteDirectory == Some(IO(message))
    ensures var r := Teardown(true, assignedPort, userName, f);
      r.1 == Pass && DeleteDirectory in r.0 && DeleteUser in r.0
      && (assignedPort.Some? ==> ReleaseLocalPort(assignedPort.value, userName) in r.0)
  {
  }

  /** What port release and user deletion throw changes nothing: neither the calls made nor the outcome. */
  lemma ReleaseAndUserFaultsIgnored(deleteDirectories: bool, assignedPort: Option<UInt16>, userName: string, f: StepFaults, g: StepFaults)
    requires f.terminate == g.terminate && f.dispose == g.dispose && f.deleteDirectory == g.deleteDirectory
    ensures Teardown(deleteDirectories, assignedPort, userName, f) == Teardown(deleteDirectories, assignedPort, userName, g)
  {
  }

  /** An uncaught failure ends the teardown at the failing step. */
  lemma UncaughtFailureStops(deleteDirectories: bool, assignedPort: Option<UInt16>, userName: string, f: StepFaults)
    ensures f.terminate.Some? ==>
      Teardown(deleteDirectories, assignedPort, userName, f) == ([TerminateProcessesAndWait(TerminateWaitTimeout)], Fail(f.terminate.value))
    ensures f.terminate.None? && f.dispose.Some? ==>
      Teardown(deleteDirectories, assignedPort, userName, f) == ([TerminateProcessesAndWait(TerminateWaitTimeout), DisposeJob], Fail(f.dispose.value))
    ensures f.terminate.None? && f.dispose.None? && AbortsDeletion(deleteDirectories, f) ==>
      Teardown(deleteDirectories, assignedPort, userName, f) ==
        ([TerminateProcessesAndWait(TerminateWaitTimeout), DisposeJob, DeleteDirectory], Fail(f.deleteDirectory.value))
  {
  }

  class ContainerResourceHolder {
    const handle: string
    /** The name of the container's user account. */
    const userName: string
    /** The full path of the container's directory. */
    const directoryPath: string
    /** The name the job object was created with. */
    const jobName: string
    const deleteDirectories: bool
    /** `AssignedPort`: the port reserved for the container, if any. */
    var assignedPort: Option<UInt16>
    /** The calls made on the collaborators, in order. */
    var calls: seq<Step>

    constructor (handle: string, userName: string, directoryPath: string, jobName: string, deleteDirectories: bool)
      ensures this.handle == handle && this.userName == userName && this.directoryPath == directoryPath
      ensures this.jobName == jobName && this.deleteDirectories == deleteDirectories
      ensures assignedPort.None? && calls == []
    {
      this.handle := handle;
      this.userName := userName;
      this.directoryPath := directoryPath;
      this.jobName := jobName;
      this.deleteDirectories := deleteDirectories;
      assignedPort := None;
      calls := [];
    }

    /** `Destroy`: the teardown, with `f` saying which collaborator calls throw. */
    method Destroy(f: StepFaults) returns (outcome: Outcome<Exception>)
      modifies this`calls
      ensures calls == old(calls) + Teardown(deleteDirectories, assignedPort, userName, f).0
      ensures outcome == Teardown(deleteDirectories, assignedPort, userName, f).1
    {
      calls := calls + [TerminateProcessesAndWait(TerminateWaitTimeout)];
      if f.terminate.Some? {
        return Fail(f.terminate.value);
      }
      calls := calls + [DisposeJob];
      if f.dispose.Some? {
        return Fail(f.dispose.value);
      }
      if deleteDirectories {
        calls := calls + [DeleteDirectory];
        if f.deleteDirectory.Some? && !f.deleteDirectory.value.IO? {
          return Fail(f.deleteDirectory.value);
        }
      }
      if assignedPort.Some? {
        // what ReleaseLocalPort throws is caught and dropped
        calls := calls + [ReleaseLocalPort(assignedPort.value, userName)];
      }
      // what deleting the user throws is caught and dropped
      calls := calls + [DeleteUser];
      outcome := Pass;
    }
  }

  /**
   * `CreateForDestroy(config, handle, assignedPort)`: a holder over a temporary user
   * (`userName` is the name derived from the handle) and a temporary directory under
   * the configured base path, with the given port assigned.
   */
  method CreateForDestroy(config: WardenConfig, handle: string, assignedPort: Option<UInt16>, userName: string)
    returns (holder: ContainerResourceHolder)
    ensures fresh(holder)
    ensures holder.handle == handle && holder.userName == userName && holder.jobName == handle
    ensures holder.directoryPath == TempDirectoryPath(handle, config.containerBasePath)
    ensures holder.deleteDirectories == config.deleteContainerDirectories
    ensures holder.assignedPort == assignedPort && holder.calls == []
  {
    var directory := new TempDirectory(handle, config.containerBasePath);
    holder := new ContainerResourceHolder(handle, userName, directory.fullPath, handle, config.deleteContainerDirectories);
    holder.assignedPort := assignedPort;
  }

  /** The path of a temporary directory: the handle under the base path. */
  function TempDirectoryPath(handle: string, containerBasePath: string): (p: string)
    ensures IsPlainName(handle) && |handle| > 0 ==> FileName(p) == handle
  {
    var p := Combine(containerBasePath, handle);
    if IsPlainName(handle) && |handle| > 0 then
      CombineFileName(containerBasePath, handle);
      p
    else
      p
  }

  /** Whether `p` is the directory `root` or lies beneath it. */
  predicate Within(p: string, root: string)
  {
    p == root || (|p| > |root| && p[..|root|] == root && IsSeparator(p[|root|]))
  }

  /** The directories of the file system, by full path. */
  class FileSystem {
    var directories: set<string>

    constructor (directories: set<string>)
      ensures this.directories == directories
    {
      this.directories := directories;
    }
  }

  /** TempDirectory: a container directory known only by its path. */
  class TempDirectory {
    const fullPath: string

    constructor (handle: string, containerBasePath: string)
      ensures fullPath == TempDirectoryPath(handle, containerBasePath)
    {
      fullPath := TempDirectoryPath(handle, containerBasePath);
    }

    /** `Delete`: when the directory exists, removes it with everything beneath it; otherwise does nothing. */
    method Delete(fs: FileSystem)
      modifies fs
      ensures fullPath !in old(fs.directories) ==> fs.directories == old(fs.directories)
      ensures fullPath in old(fs.directories) ==>
        fs.directories == set p | p in old(fs.directories) && !Within(p, fullPath)
    {
      if fullPath in fs.directories {
        fs.directories := set p | p in fs.directories && !Within(p, fullPath);
      }
    }
  }
}
