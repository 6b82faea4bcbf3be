/**
 * ContainerStub: a container's lifecycle (Born, then Active once initialized,
 * Destroyed once destroyed), the guard that refuses work outside the Active
 * state, the start info of a process started in the container, and the
 * container's statistics.
 */
module Stubs {
  import opened Wrappers
  import opened Faults
  import opened StartInfos
  import opened Jobs
  import opened ProcessStatistics

  datatype ContainerState = Born | Active | Destroyed

  /** The message of the exception for work requested outside the Active state. */
  const NotActiveMessage := "Container is not in an active state."

  /** `ContainerState.ToString()`. */
  function StateName(s: ContainerState): string
  {
    match s
    case Born => "Born"
    case Active => "Active"
    case Destroyed => "Destroyed"
  }

  /** The container user's network credential: name and password. */
  datatype Credential = Credential(userName: string, password: Option<string>)

  /** The request to start a process: its strings may be null; its environment is a map of variables. */
  datatype CreateProcessStartInfo = CreateProcessStartInfo(
    fileName: Option<string>,
    arguments: Option<string>,
    workingDirectory: Option<string>,
    userName: Option<string>,
    password: Option<string>,
    environment: map<string, string>)

  /** What `GetInfo` reports. */
  datatype ContainerInfo = ContainerInfo(
    hostIPAddress: string,
    containerIPAddress: string,
    containerPath: string,
    state: string,
    totalProcessorTime: int,
    privateBytes: int)

  /** The settings of a container process apart from its environment. */
  function BaseStartInfo(request: CreateProcessStartInfo, impersonated: Option<Credential>, inherited: map<string, string>): (si: StartInfo)
    ensures si.fileName == OrEmpty(request.fileName) && si.arguments == OrEmpty(request.arguments)
    ensures si.workingDirectory == OrEmpty(request.workingDirectory)
    ensures impersonated.Some? ==> si.userName == impersonated.value.userName && si.password == impersonated.value.password
    ensures impersonated.None? ==> si.userName == OrEmpty(request.userName) && si.password == request.password
    ensures !si.useShellExecute && si.createNoWindow && !si.loadUserProfile
    ensures si.redirectStandardInput && si.redirectStandardOutput && si.redirectStandardError
    ensures si.environment == inherited
  {
    NewStartInfo(inherited, None, None).(
      useShellExecute := false, createNoWindow := true, loadUserProfile := false,
      redirectStandardError := true, redirectStandardOutput := true, redirectStandardInput := true,
      workingDirectory := OrEmpty(request.workingDirectory),
      fileName := OrEmpty(request.fileName),
      arguments := OrEmpty(request.arguments),
      userName := if impersonated.Some? then impersonated.value.userName else OrEmpty(request.userName),
      password := if impersonated.Some? then impersonated.value.password else request.password)
  }

  /** The start info of a container process: the base settings, with the request's environment when it names any variable. */
  function ProcessStartInfoFor(request: CreateProcessStartInfo, impersonated: Option<Credential>, inherited: map<string, string>): (si: StartInfo)
    ensures |request.environment| > 0 ==> si.environment == request.environment
    ensures |request.environment| == 0 ==> si.environment == inherited
    ensures si.fileName == OrEmpty(request.fileName) && si.arguments == OrEmpty(request.arguments)
    ensures si.workingDirectory == OrEmpty(request.workingDirectory)
    ensures !si.useShellExecute && si.redirectStandardInput && si.redirectStandardOutput && si.redirectStandardError
  {
    BaseStartInfo(request, impersonated, inherited).(
      environment := if |request.environment| > 0 then request.environment else inherited)
  }

  /** The credential the process runs as: the container user's when impersonating, else none (the request's own). */
  function Impersonation(impersonate: bool, user: Option<Credential>): Result<Option<Credential>, Exception>
  {
    if !impersonate then Success(None)
    else if user.None? then Failure(NullReference)
    else Success(Some(user.value))
  }

  /**
   * `ToProcessStartInfo(request, impersonate)`: the base settings, and the
   * request's environment in place of the inherited one when the request names any
   * variable. Impersonating with no credential dereferences null.
   */
  method ToProcessStartInfo(request: CreateProcessStartInfo, impersonate: bool, user: Option<Credential>, inherited: map<string, string>)
    returns (r: Result<StartInfo, Exception>)
    ensures impersonate && user.None? ==> r == Failure(NullReference)
    ensures !(impersonate && user.None?) ==> r.Success?
    ensures r.Success? ==> r.value == ProcessStartInfoFor(request, Impersonation(impersonate, user).value, inherited)
  {
    var credential := Impersonation(impersonate, user);
    if credential.Failure? {
      return Failure(credential.error);
    }
    var si := BaseStartInfo(request, credential.value, inherited);
    if |request.environment| > 0 {
      var environment: map<string, string> := map[];
      var keys := request.environment.Keys;
      while keys != {}
        invariant keys <= request.environment.Keys
        invariant forall k :: k in environment <==> k in request.environment && k !in keys
        invariant forall k :: k in environment ==> environment[k] == request.environment[k]
        decreases keys
      {
        var key :| key in keys;
        environment := environment[key := request.environment[key]];
        keys := keys - {key};
      }
      assert environment == request.environment;
      si := si.(environment := environment);
    }
    r := Success(si);
  }

  /** A request with no variables leaves the inherited environment; one with variables replaces it exactly. */
  lemma EnvironmentChoice(request: CreateProcessStartInfo, impersonated: Option<Credential>, inherited: map<string, string>)
    ensures var si := ProcessStartInfoFor(request, impersonated, inherited);
      (|request.environment| == 0 ==> si.environment == inherited)
      && (|request.environment| > 0 ==> si.environment.Keys == request.environment.Keys)
      && forall k :: k in request.environment ==> k in si.environment && si.environment[k] == request.environment[k]
  {
    if |request.environment| == 0 {
      assert request.environment == map[];
    }
  }

  /** `GetCpuStat`: the job's kernel plus user time; a sum outside the tick range throws OverflowException. */
  method GetCpuStat(cpu: CpuStatistics) returns (r: Result<int, Exception>)
    ensures r.Success? <==> IsInt64(cpu.totalKernelTime + cpu.totalUserTime)
    ensures r.Success? ==> r.value == cpu.totalKernelTime + cpu.totalUserTime
    ensures r.Failure? ==> r.error == Overflow
  {
    r := AddTimes(cpu.totalKernelTime, cpu.totalUserTime);
  }

  /**
   * `GetMemoryStat`: the private bytes of the job's processes still found, each
   * converted to unsigned and summed with 64-bit wrap-around.
   */
  method GetMemoryStat(ids: seq<int>, running: map<int, ProcessSample>) returns (privateBytes: int)
    ensures 0 <= privateBytes < Modulus64
    ensures privateBytes == WrapUInt64(Total(Found(ids, running), PrivateMemory))
  {
    var processes := Found(ids, running);
    privateBytes := 0;
    var i := 0;
    while i < |processes|
      invariant 0 <= i <= |processes|
      invariant privateBytes == WrapUInt64(Total(processes[..i], PrivateMemory))
    {
      assert processes[..i + 1][..i] == processes[..i];
      WrapUInt64Add(Total(processes[..i], PrivateMemory), processes[i].privateMemoryBytes);
      privateBytes := WrapUInt64(privateBytes + WrapUInt64(processes[i].privateMemoryBytes));
      i := i + 1;
    }
    assert processes[..|processes|] == processes;
  }

  /** The memory total is the exact sum whenever that sum fits the unsigned 64-bit range. */
  lemma MemoryStatExact(ids: seq<int>, running: map<int, ProcessSample>)
    requires 0 <= Total(Found(ids, running), PrivateMemory) < Modulus64
    ensures WrapUInt64(Total(Found(ids, running), PrivateMemory)) == Total(Found(ids, running), PrivateMemory)
  {
  }

  /** `RealProcessWrapper.Kill`: kills the process unless it has already exited. */
  method Kill(p: OsProcess)
    modifies p`killed
    ensures p.killed == (old(p.killed) || !p.hasExited)
  {
    if p.hasExited {
      return;
    }
    p.Kill();
  }

  class ContainerStub {
    const job: JobObject
    /** `currentState`. */
    var state: ContainerState
    /** `user`: the credential taken at initialization. */
    var user: Option<Credential>
    /** The full path of the container directory, once initialized. */
    var directoryPath: Option<string>
    /** `containerHandle`. */
    var handle: Option<string>
    /** The start infos of the processes started, in order. */
    var started: seq<StartInfo>
    /** The bind mounts requested of the container directory, in order. */
    var mountRequests: seq<seq<string>>

    constructor (job: JobObject)
      ensures this.job == job && state == Born
      ensures user.None? && directoryPath.None? && handle.None? && started == [] && mountRequests == []
    {
      this.job := job;
      state := Born;
      user := None;
      directoryPath := None;
      handle := None;
      started := [];
      mountRequests := [];
    }

    /** `ThrowIfNotActive`: InvalidOperationException outside the Active state. */
    function ActiveCheck(): (r: Outcome<Exception>)
      reads this
      ensures r.Pass? <==> state == Active
      ensures r.Fail? ==> r.error == InvalidOperation(NotActiveMessage)
    {
      if state != Active then Fail(InvalidOperation(NotActiveMessage)) else Pass
    }

    /**
     * `Initialize(directory, handle, user)`: takes the user's credential (what
     * `GetCredential` gives or throws), then becomes Active with the directory and
     * handle. A throwing `GetCredential` changes nothing.
     */
    method Initialize(directoryPath: Option<string>, handle: Option<string>, credential: Result<Credential, Exception>)
      returns (outcome: Outcome<Exception>)
      modifies this`state, this`user, this`directoryPath, this`handle
      ensures credential.Failure? ==>
        outcome == Fail(credential.error) && state == old(state) && user == old(user)
        && this.directoryPath == old(this.directoryPath) && this.handle == old(this.handle)
      ensures credential.Success? ==>
        outcome == Pass && state == Active && user == Some(credential.value)
        && this.directoryPath == directoryPath && this.handle == handle
    {
      if credential.Failure? {
        return Fail(credential.error);
      }
      user := Some(credential.value);
      state := Active;
      this.directoryPath := directoryPath;
      this.handle := handle;
      outcome := Pass;
    }

    /** `Destroy`: the container becomes Destroyed, whatever its state. */
    method Destroy()
      modifies this`state
      ensures state == Destroyed
    {
      state := Destroyed;
    }

    /** `BindMounts`: passes the mounts to the container directory when Active. */
    method BindMounts(mounts: seq<string>) returns (outcome: Outcome<Exception>)
      modifies this`mountRequests
      ensures outcome == ActiveCheck()
      ensures outcome.Pass? ==> mountRequests == old(mountRequests) + [mounts]
      ensures outcome.Fail? ==> mountRequests == old(mountRequests)
    {
      outcome := ActiveCheck();
      if outcome.Pass? {
        mountRequests := mountRequests + [mounts];
      }
    }

    /**
     * `CreateProcess(request, impersonate)`: when Active, starts a process with the
     * start info built from the request (`pid` is the id the system gives it) and
     * assigns it to the job. A disposed job makes the assignment throw after the
     * process has started, so the process runs on outside the job.
     */
    method CreateProcess(request: CreateProcessStartInfo, impersonate: bool, inherited: map<string, string>, pid: int)
      returns (r: Result<int, Exception>)
      modifies this`started, job`members
      ensures state != Active ==>
        r == Failure(InvalidOperation(NotActiveMessage)) && started == old(started) && job.members == old(job.members)
      ensures state == Active && impersonate && user.None? ==>
        r == Failure(NullReference) && started == old(started) && job.members == old(job.members)
      ensures state == Active && !(impersonate && user.None?) ==>
        started == old(started) + [ProcessStartInfoFor(request, if impersonate then user else None, inherited)]
      ensures state == Active && !(impersonate && user.None?) && job.handle.Some? ==>
        r == Success(pid) && job.members == old(job.members) + {pid}
      ensures state == Active && !(impersonate && user.None?) && job.handle.None? ==>
        r == Failure(ArgumentNull("pHandle")) && job.members == old(job.members)
    {
      var check := ActiveCheck();
      if check.Fail? {
        return Failure(check.error);
      }
      var si := ToProcessStartInfo(request, impersonate, user, inherited);
      if si.Failure? {
        return Failure(si.error);
      }
      started := started + [si.value];
      var joined := job.AssignProcessToJob(pid);
      if joined.Fail? {
        return Failure(joined.error);
      }
      r := Success(pid);
    }

    /**
     * `GetInfo`: when Active, the addresses (empty when the machine has none), the
     * directory path, the state's name and the statistics. The fields are read in
     * order, so a missing directory throws before the statistics are taken.
     */
    method GetInfo(ipAddress: Option<string>, cpu: CpuStatistics, ids: seq<int>, running: map<int, ProcessSample>)
      returns (r: Result<ContainerInfo, Exception>)
      ensures state != Active ==> r == Failure(InvalidOperation(NotActiveMessage))
      ensures state == Active && directoryPath.None? ==> r == Failure(NullReference)
      ensures state == Active && directoryPath.Some? && !IsInt64(cpu.totalKernelTime + cpu.totalUserTime) ==> r == Failure(Overflow)
      ensures r.Success? ==>
        r.value.hostIPAddress == ipAddress.GetOr("") && r.value.containerIPAddress == ipAddress.GetOr("")
        && directoryPath == Some(r.value.containerPath) && r.value.state == "Active"
        && r.value.totalProcessorTime == cpu.totalKernelTime + cpu.totalUserTime
        && r.value.privateBytes == WrapUInt64(Total(Found(ids, running), PrivateMemory))
      ensures state == Active && directoryPath.Some? && IsInt64(cpu.totalKernelTime + cpu.totalUserTime) ==> r.Success?
    {
      var check := ActiveCheck();
      if check.Fail? {
        return Failure(check.error);
      }
      var address := ipAddress.GetOr("");
      if directoryPath.None? {
        return Failure(NullReference);
      }
      var cpuStat := GetCpuStat(cpu);
      if cpuStat.Failure? {
        return Failure(cpuStat.error);
      }
      var memoryStat := GetMemoryStat(ids, running);
      r := Success(ContainerInfo(address, address, directoryPath.value, StateName(state), cpuStat.value, memoryStat));
    }

    /** `ReservePort`: not implemented. */
    method ReservePort(requestedPort: int) returns (r: Result<int, Exception>)
      ensures r == Failure(NotImplemented)
    {
      r := Failure(NotImplemented);
    }

    /** `Stop`: not implemented. */
    method Stop() returns (outcome: Outcome<Exception>)
      ensures outcome == Fail(NotImplemented)
    {
      outcome := Fail(NotImplemented);
    }

    /** `Dispose`: disposes the job. */
    method Dispose()
      modifies job`handle, job`released
      ensures job.handle.None?
      ensures old(job.handle).Some? ==> job.released == old(job.released) + [old(job.handle).value]
      ensures old(job.handle).None? ==> job.released == old(job.released)
    {
      job.Dispose();
    }
  }
}
