/**
 * ProcessLauncher: starts processes through the container host. The host is
 * started on first use and kept; each launch writes one CreateProcess request
 * line to the host's standard input and reads one response line from its
 * standard output, which yields the id of the started process or an exception
 * carrying the host's error.
 */
module Launcher {
  import opened Wrappers
  import opened Json
  import opened JsonAccess
  import opened Faults
  import opened JsonRpc
  import opened WinPaths
  import opened StartInfos
  import opened Jobs
  import opened CreateProcessMessage
  import HostDispatch
  import opened HostExecutable

  /** The message `Process.GetProcessById` throws with for an id no process has. */
  function NotRunningMessage(pid: int): string
  {
    "Process with an Id of " + IntText(pid) + " is not running."
  }

  /** `Process.GetProcessById(pid)` against the ids of the running processes. */
  function GetProcessById(pid: int, running: set<int>): (r: Result<int, Exception>)
    ensures r.Success? <==> pid in running
    ensures r.Success? ==> r.value == pid
    ensures r.Failure? ==> r.error == Argument(NotRunningMessage(pid))
  {
    if pid in running then Success(pid) else Failure(Argument(NotRunningMessage(pid)))
  }

  /**
   * The exception thrown for a response's "error" member: a ProcessLauncherException
   * with the member's message text, its code as an int and its data text, or the
   * exception that reading one of those raises first (message, then code, then data).
   */
  function LauncherException(error: Json): (e: Exception)
    ensures (error.JObject? && Get(error.props, "message").Some? && AsInt32(Get(error.props, "code")).Success?
             && Get(error.props, "data").Some?) ==>
      e == ProcessLauncher(Text(Get(error.props, "message").value), AsInt32(Get(error.props, "code")).value,
                           Text(Get(error.props, "data").value))
    ensures e.ProcessLauncher? ==> error.JObject? && IsInt32(e.code)
    ensures error.JObject? && (Get(error.props, "message").None? || Get(error.props, "data").None?) ==> !e.ProcessLauncher?
  {
    match Index(error, "message")
    case Failure(x) => x
    case Success(messageToken) =>
      match ToText(messageToken)
      case Failure(x) => x
      case Success(message) =>
        match AsInt32(Get(error.props, "code"))
        case Failure(x) => x
        case Success(code) =>
          match ToText(Get(error.props, "data"))
          case Failure(x) => x
          case Success(data) => ProcessLauncher(message, code, data)
  }

  /**
   * `RequestStartProcess` after the response is parsed, as written: an "error"
   * member raises; otherwise the "result" member, converted to int, is the id of
   * the started process.
   */
  function InterpretResponseAsWritten(response: JsonObject, running: set<int>): (r: Result<int, Exception>)
    ensures Has(response, "error") ==> r.Failure? && r.error == LauncherException(Get(response, "error").value)
    ensures r.Success? ==> r.value in running && AsInt32(Get(response, "result")) == Success(r.value)
  {
    match Get(response, "error")
    case Some(error) => Failure(LauncherException(error))
    case None =>
      match AsInt32(Get(response, "result"))
      case Failure(x) => Failure(x)
      case Success(pid) => GetProcessById(pid, running)
  }

  /**
   * `RequestStartProcess` after the response is parsed, reading the id where the
   * host's CreateProcess reply puts it: the "Id" member of the result.
   */
  function InterpretResponse(response: JsonObject, running: set<int>): (r: Result<int, Exception>)
    ensures Has(response, "error") ==> r.Failure? && r.error == LauncherException(Get(response, "error").value)
    ensures r.Success? ==> r.value in running && !Has(response, "error")
    ensures r.Success? ==>
      exists result :: (Get(response, "result") == Some(result) && result.JObject?
                        && AsInt32(Get(result.props, "Id")) == Success(r.value))
  {
    match Get(response, "error")
    case Some(error) => Failure(LauncherException(error))
    case None =>
      match IndexOpt(Get(response, "result"), "Id")
      case Failure(x) => Failure(x)
      case Success(idToken) =>
        match AsInt32(idToken)
        case Failure(x) => Failure(x)
        case Success(pid) => GetProcessById(pid, running)
  }

  /** `GetResponse`: the line read, parsed; a null line (the host closed its output) makes `JObject.Parse` throw. */
  function ReadResponse(line: Option<string>, parse: string -> Result<JsonObject, string>): (r: Result<JsonObject, Exception>)
    ensures line.None? ==> r == Failure(ArgumentNull("s"))
    ensures line.Some? && parse(line.value).Success? ==> r == Success(parse(line.value).value)
    ensures line.Some? && parse(line.value).Failure? ==> r == Failure(JsonReader(parse(line.value).error))
  {
    match line
    case None => Failure(ArgumentNull("s"))
    case Some(text) =>
      match parse(text)
      case Failure(message) => Failure(JsonReader(message))
      case Success(response) => Success(response)
  }

  /** What one launch makes of the line it reads, with the response read as the code is written. */
  function LaunchResult(line: Option<string>, parse: string -> Result<JsonObject, string>, running: set<int>): (r: Result<int, Exception>)
    ensures line.None? ==> r == Failure(ArgumentNull("s"))
    ensures line.Some? && parse(line.value).Failure? ==> r == Failure(JsonReader(parse(line.value).error))
    ensures line.Some? && parse(line.value).Success? && Has(parse(line.value).value, "error") ==>
      r == Failure(LauncherException(Get(parse(line.value).value, "error").value))
    ensures r.Success? ==> r.value in running
  {
    match ReadResponse(line, parse)
    case Failure(x) => Failure(x)
    case Success(response) => InterpretResponseAsWritten(response, running)
  }

  /** The next line of a stream: its first line, or null at the end. */
  function NextLine(lines: seq<string>): (r: Option<string>)
    ensures r.None? <==> |lines| == 0
    ensures r.Some? ==> r.value == lines[0]
  {
    if |lines| == 0 then None else Some(lines[0])
  }

  /** The stream after one `ReadLine`: the first line is consumed; at the end nothing changes. */
  function AfterRead(lines: seq<string>): (r: seq<string>)
    ensures |lines| > 0 ==> [lines[0]] + r == lines
    ensures |lines| == 0 ==> r == []
  {
    if |lines| == 0 then [] else lines[1..]
  }

  /** A response with an error member raises the exception built from that member. */
  lemma ErrorMemberRaised(id: Json, body: Json, running: set<int>)
    ensures InterpretResponseAsWritten(HostDispatch.ResponseObject(id, "error", body), running) == Failure(LauncherException(body))
  {
    assert Has(HostDispatch.ResponseObject(id, "error", body), "error");
  }

  /** An error member as the host's dispatcher builds it raises its message, code and data text. */
  lemma LauncherExceptionOf(code: int, message: string, data: Json)
    requires IsInt32(code)
    ensures LauncherException(JObject(HostDispatch.ErrorObject(code, message, data))) == ProcessLauncher(message, code, Text(data))
  {
    var e := HostDispatch.ErrorObject(code, message, data);
    assert AsInt32(Get(e, "code")) == Success(code);
  }

  /** The host's reply to a failed CreateProcess (an internal error) raises the host's message, code -32603 and stack trace. */
  lemma HostErrorRaised(request: JsonObject, thrown: HostDispatch.Thrown, running: set<int>)
    ensures InterpretResponseAsWritten(HostDispatch.InternalError(request, thrown), running)
      == Failure(ProcessLauncher(thrown.message, -32603, thrown.stackTrace))
  {
    var id, data := ValueOrNull(Get(request, "id")), JString(thrown.stackTrace);
    var e := HostDispatch.ErrorObject(-32603, thrown.message, data);
    calc {
      InterpretResponseAsWritten(HostDispatch.InternalError(request, thrown), running);
      { assert HostDispatch.InternalError(request, thrown) == HostDispatch.ResponseObject(id, "error", JObject(e)); }
      InterpretResponseAsWritten(HostDispatch.ResponseObject(id, "error", JObject(e)), running);
      { ErrorMemberRaised(id, JObject(e), running); }
      Failure(LauncherException(JObject(e)));
      { LauncherExceptionOf(-32603, thrown.message, data); }
      Failure(ProcessLauncher(thrown.message, -32603, Text(data)));
      { assert Text(data) == thrown.stackTrace; }
      Failure(ProcessLauncher(thrown.message, -32603, thrown.stackTrace));
    }
  }

  /** A method the host does not know raises its "does not exist" message, code -32601 and empty data (the text of a JSON null). */
  lemma UnknownMethodRaised(request: JsonObject, name: string, running: set<int>)
    ensures InterpretResponseAsWritten(HostDispatch.MethodNotFoundError(request, name), running)
      == Failure(ProcessLauncher("The method '" + name + "' does not exist.", -32601, ""))
  {
    var id, message := ValueOrNull(Get(request, "id")), "The method '" + name + "' does not exist.";
    var e := HostDispatch.ErrorObject(-32601, message, JNull);
    calc {
      InterpretResponseAsWritten(HostDispatch.MethodNotFoundError(request, name), running);
      { assert HostDispatch.MethodNotFoundError(request, name) == HostDispatch.ResponseObject(id, "error", JObject(e)); }
      InterpretResponseAsWritten(HostDispatch.ResponseObject(id, "error", JObject(e)), running);
      { ErrorMemberRaised(id, JObject(e), running); }
      Failure(LauncherException(JObject(e)));
      { LauncherExceptionOf(-32601, message, JNull); }
      Failure(ProcessLauncher(message, -32601, Text(JNull)));
      { assert Text(JNull) == ""; }
      Failure(ProcessLauncher(message, -32601, ""));
    }
  }

  /**
   * The host's CreateProcess reply: a CreateProcessResponse for the started
   * process, which the dispatcher passes through as a prebuilt response.
   */
  function HostReply(request: JsonObject, id: Option<string>, pid: int): JsonObject
  {
    var reply: Response<Json> := Typed(id, ResultToken(CreateProcessResult(pid)));
    HostDispatch.Respond(request, HostDispatch.Returned(HostDispatch.Prebuilt(reply)))
  }

  /** The host's CreateProcess reply is rejected by the code as written: its result is an object, which `(int)` refuses. */
  lemma HostReplyRejected(request: JsonObject, id: Option<string>, pid: int, running: set<int>)
    ensures InterpretResponseAsWritten(HostReply(request, id, pid), running) == Failure(Argument("Can not convert Object to Int32."))
  {
    var token := ResultToken(CreateProcessResult(pid));
    var reply := Frame(Typed(id, token));
    FramesAgreeWithoutError(Typed(id, token));
    assert HostReply(request, id, pid) == reply;
    assert Get(reply, "error").None? && Get(reply, "result") == Some(token);
    ObjectNotInt32(token.props);
  }

  /** A launch that reads the host's CreateProcess reply fails, as the code is written, whatever process the host started. */
  lemma LaunchRejectsHostReply(line: string, parse: string -> Result<JsonObject, string>,
                               request: JsonObject, id: Option<string>, pid: int, running: set<int>)
    requires parse(line) == Success(HostReply(request, id, pid))
    ensures LaunchResult(Some(line), parse, running) == Failure(Argument("Can not convert Object to Int32."))
  {
    HostReplyRejected(request, id, pid, running);
  }

  /** The host's CreateProcess reply yields the id of the process the host started, when that process is running. */
  lemma HostReplyAccepted(request: JsonObject, id: Option<string>, pid: int, running: set<int>)
    requires IsInt32(pid)
    ensures InterpretResponse(HostReply(request, id, pid), running) == GetProcessById(pid, running)
  {
    var token := ResultToken(CreateProcessResult(pid));
    FramesAgreeWithoutError(Typed(id, token));
    assert HostReply(request, id, pid) == Frame(Typed(id, token));
    assert Get(Frame(Typed(id, token)), "result") == Some(token);
  }

  class ProcessLauncher {
    /** The directory `Directory.GetCurrentDirectory()` reports. */
    const currentDirectory: string
    /** The environment of the launching process, which a new start info copies. */
    const inherited: map<string, string>
    /** `JsonConvert.SerializeObject(msg, Formatting.None)` for a CreateProcess request. */
    const encode: Request<Params> -> string
    /** `JObject.Parse`: a line's object, or the message of the exception it throws. */
    const parse: string -> Result<JsonObject, string>
    /** `Path.Combine(Directory.GetCurrentDirectory(), hostExe)`: where the host executable is started from. */
    const hostPath: string
    /** `hostProcess`: the id of the host once started. */
    var host: Option<int>
    /** The start infos processes were started with by this launcher, in order. */
    var spawned: seq<StartInfo>
    /** The lines written to the host's standard input, in order. */
    var written: seq<string>
    /** The lines the host has written to its standard output and that are not read yet. */
    var output: seq<string>

    constructor (currentDirectory: string, inherited: map<string, string>, encode: Request<Params> -> string,
                 parse: string -> Result<JsonObject, string>, output: seq<string>)
      ensures this.currentDirectory == currentDirectory && this.inherited == inherited
      ensures this.encode == encode && this.parse == parse
      ensures hostPath == HostPath(currentDirectory)
      ensures host.None? && spawned == [] && written == [] && this.output == output
    {
      this.currentDirectory := currentDirectory;
      this.inherited := inherited;
      this.encode := encode;
      this.hostPath := HostPath(currentDirectory);
      this.parse := parse;
      host := None;
      spawned := [];
      written := [];
      this.output := output;
    }

    /** The start info of the host: the host executable with no arguments, its streams redirected, no shell. */
    function HostStartInfo(): (si: StartInfo)
      ensures si.fileName == hostPath && si.arguments == ""
      ensures si.redirectStandardInput && si.redirectStandardOutput && si.redirectStandardError && !si.useShellExecute
      ensures si.environment == inherited
    {
      StartInfos.HostStartInfo(inherited, hostPath, None)
    }

    /**
     * `LaunchProcess(si, job)`: starts the host if none is recorded (`hostPid` is the
     * id the system gives it) and assigns it to the job; then writes the request for
     * `si` and reads one line, which decides the result. A disposed job makes the
     * assignment throw after the host is started and recorded, so no request is
     * written for this call, and a later call finds the host and skips the job.
     */
    method LaunchProcess(si: StartInfo, job: JobObject, hostPid: int, requestId: string, running: set<int>)
      returns (r: Result<int, Exception>)
      modifies this`host, this`spawned, this`written, this`output, job`members
      ensures old(host).None? ==> host == Some(hostPid) && spawned == old(spawned) + [HostStartInfo()]
      ensures old(host).None? && job.handle.Some? ==> job.members == old(job.members) + {hostPid}
      ensures old(host).None? && job.handle.None? ==>
        r == Failure(ArgumentNull("pHandle")) && job.members == old(job.members)
        && written == old(written) && output == old(output)
      ensures old(host).Some? ==> host == old(host) && spawned == old(spawned) && job.members == old(job.members)
      ensures old(host).Some? || job.handle.Some? ==>
        written == old(written) + [encode(RequestFor(requestId, si))]
        && output == AfterRead(old(output))
        && r == LaunchResult(NextLine(old(output)), parse, running)
    {
      if host.None? {
        spawned := spawned + [HostStartInfo()];
        host := Some(hostPid);
        var joined := job.AssignProcessToJob(hostPid);
        if joined.Fail? {
          return Failure(joined.error);
        }
      }
      r := RequestStartProcess(si, requestId, running);
    }

    /** `RequestStartProcess`: one request line out, one response line in. */
    method RequestStartProcess(si: StartInfo, requestId: string, running: set<int>) returns (r: Result<int, Exception>)
      modifies this`written, this`output
      ensures written == old(written) + [encode(RequestFor(requestId, si))]
      ensures output == AfterRead(old(output))
      ensures r == LaunchResult(NextLine(old(output)), parse, running)
    {
      var message := RequestFor(requestId, si);
      written := written + [encode(message)];
      var line := NextLine(output);
      output := AfterRead(output);
      var response := ReadResponse(line, parse);
      if response.Failure? {
        return Failure(response.error);
      }
      r := InterpretResponseAsWritten(response.value, running);
    }
  }
}
