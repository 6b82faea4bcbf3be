/**
 * ContainerHostLauncher: starts the container host process with its standard
 * streams wired to a message transport and a messaging client, stops it, reports
 * its status, and runs the host once more as the janitor that destroys a
 * container.
 */
module HostLaunching {
  import opened Wrappers
  import opened Json
  import opened Faults
  import opened JsonAccess
  import opened JsonRpc
  import opened WinPaths
  import opened StartInfos
  import opened Jobs
  import opened CommandLines
  import opened Messaging
  import opened Transport
  import opened Containers
  import opened HostExecutable

  /** How long, in milliseconds, the janitor process is given to exit. */
  const CleanUpWaitTime := 60000

  /** The message of the TimeoutException for a janitor that does not exit in time. */
  const CleanUpTimeoutMessage := "The container cleanup process did not exit in a timely fashion."

  /** The identity of the response subscriber that forwards responses to the messaging client. */
  const ResponseForwarder: nat := 0

  /** The arguments of a host started for a job object: the "start" verb and the job's name as handle (empty when null). */
  function StartArguments(jobObjectName: Option<string>): string
  {
    "start " + "--handle " + OrEmpty(jobObjectName)
  }

  /** A job object named by a plain word is passed as the one value of "--handle". */
  lemma StartArgumentsWords(jobObjectName: string)
    requires |jobObjectName| > 0 && NoSpace(jobObjectName)
    ensures Words(StartArguments(Some(jobObjectName))) == ["start", "--handle", jobObjectName]
  {
    var verb, option := "start", "--handle";
    calc {
      Words(StartArguments(Some(jobObjectName)));
      { assert StartArguments(Some(jobObjectName)) == verb + " " + option + " " + jobObjectName; }
      Words(verb + " " + option + " " + jobObjectName);
      { assert NoSpace(verb) && NoSpace(option);
        ThreeWords(verb, option, jobObjectName); }
      [verb, option, jobObjectName];
    }
  }

  /** A null or empty job object name leaves "--handle" without a value. */
  lemma StartArgumentsNoName(jobObjectName: Option<string>)
    requires jobObjectName.None? || jobObjectName == Some("")
    ensures Words(StartArguments(jobObjectName)) == ["start", "--handle"]
  {
    var verb, option := "start", "--handle";
    calc {
      Words(StartArguments(jobObjectName));
      { assert StartArguments(jobObjectName) == verb + " " + (option + " " + ""); }
      Words(verb + " " + (option + " " + ""));
      { assert NoSpace(verb);
        WordThenRest(verb, option + " " + ""); }
      [verb] + Words(option + " " + "");
      { assert NoSpace(option);
        WordThenRest(option, ""); }
      [verb] + ([option] + Words(""));
      { NoWords(); }
      [verb, option];
    }
  }

  /**
   * The arguments of the janitor: the "destroy" verb, then the handle, base path
   * and port each after its option, every word followed by a space, and
   * "--deleteDirectories" last when directories are to be deleted.
   */
  function DestroyArguments(handle: string, containerBasePath: string, tcpPort: string, deleteDirectories: bool): string
  {
    Spaced(["destroy", "--handle", handle, "--containerBasePath", containerBasePath, "--tcpPort", tcpPort])
    + (if deleteDirectories then "--deleteDirectories" else "")
  }

  /** The words of the janitor's arguments: every option with its value, and the flag exactly when asked for. */
  lemma DestroyArgumentsWords(handle: string, containerBasePath: string, tcpPort: string, deleteDirectories: bool)
    requires |handle| > 0 && NoSpace(handle)
    requires |containerBasePath| > 0 && NoSpace(containerBasePath)
    requires |tcpPort| > 0 && NoSpace(tcpPort)
    ensures Words(DestroyArguments(handle, containerBasePath, tcpPort, deleteDirectories))
      == ["destroy", "--handle", handle, "--containerBasePath", containerBasePath, "--tcpPort", tcpPort]
         + (if deleteDirectories then ["--deleteDirectories"] else [])
  {
    var ws := ["destroy", "--handle", handle, "--containerBasePath", containerBasePath, "--tcpPort", tcpPort];
    JanitorOptionsAreWords(handle, containerBasePath, tcpPort);
    SpacedWords(ws, if deleteDirectories then "--deleteDirectories" else "");
    if deleteDirectories {
      FlagWords();
    } else {
      NoWords();
    }
  }

  /** The verb, the options and their values are all words. */
  lemma JanitorOptionsAreWords(handle: string, containerBasePath: string, tcpPort: string)
    requires |handle| > 0 && NoSpace(handle)
    requires |containerBasePath| > 0 && NoSpace(containerBasePath)
    requires |tcpPort| > 0 && NoSpace(tcpPort)
    ensures AllWords(["destroy", "--handle", handle, "--containerBasePath", containerBasePath, "--tcpPort", tcpPort])
  {
    assert NoSpace("destroy") && NoSpace("--handle") && NoSpace("--containerBasePath") && NoSpace("--tcpPort");
  }

  /** The delete flag alone is one word. */
  lemma FlagWords()
    ensures Words("--deleteDirectories") == ["--deleteDirectories"]
  {
    assert NoSpace("--deleteDirectories");
    LoneWord("--deleteDirectories");
  }

  /** Decimal digits contain no space. */
  lemma DigitsNoSpace(s: string)
    requires forall i :: 0 <= i < |s| ==> '0' <= s[i] <= '9'
    ensures NoSpace(s)
  {
  }

  /** Where the janitor finds its handle and port among the words, and that the flag comes last exactly when asked for. */
  lemma DestroyArgumentPositions(handle: string, containerBasePath: string, tcpPort: string, deleteDirectories: bool)
    requires |handle| > 0 && NoSpace(handle)
    requires |containerBasePath| > 0 && NoSpace(containerBasePath)
    requires |tcpPort| > 0 && NoSpace(tcpPort) && tcpPort[0] != '-'
    ensures var words := Words(DestroyArguments(handle, containerBasePath, tcpPort, deleteDirectories));
      |words| >= 7 && words[2] == handle && words[5] == "--tcpPort" && words[6] == tcpPort
      && (words[|words| - 1] == "--deleteDirectories" <==> deleteDirectories)
  {
    DestroyArgumentsWords(handle, containerBasePath, tcpPort, deleteDirectories);
    if !deleteDirectories {
      var flag := "--deleteDirectories";
      assert tcpPort != flag by {
        assert tcpPort[0] != flag[0];
      }
    }
  }

  /**
   * The janitor's words name the container as the third word, give the port as the
   * word after "--tcpPort", which reads back as that port, and end in the
   * "--deleteDirectories" flag exactly when directories are to be deleted.
   */
  predicate JanitorWordsCarry(words: seq<string>, handle: string, port: int, deleteDirectories: bool)
  {
    |words| >= 7 && words[2] == handle && words[5] == "--tcpPort"
    && ParseInt32(words[6]) == Success(port)
    && (words[|words| - 1] == "--deleteDirectories" <==> deleteDirectories)
  }

  /** The janitor's port word is the port text, so it reads back as whatever that text reads as. */
  lemma DestroyArgumentsReadBack(handle: string, containerBasePath: string, tcpPort: string, deleteDirectories: bool, port: int)
    requires |handle| > 0 && NoSpace(handle)
    requires |containerBasePath| > 0 && NoSpace(containerBasePath)
    requires |tcpPort| > 0 && NoSpace(tcpPort) && tcpPort[0] != '-'
    requires ParseInt32(tcpPort) == Success(port)
    ensures JanitorWordsCarry(Words(DestroyArguments(handle, containerBasePath, tcpPort, deleteDirectories)), handle, port, deleteDirectories)
  {
    DestroyArgumentPositions(handle, containerBasePath, tcpPort, deleteDirectories);
  }

  /**
   * The janitor started for a container manager's call receives the configured
   * port as the word after "--tcpPort", and that word reads back as the port.
   */
  lemma JanitorReceivesPort(config: WardenConfig, handle: string, removed: Option<ContainerClient>)
    requires |handle| > 0 && NoSpace(handle)
    requires |config.containerBasePath| > 0 && NoSpace(config.containerBasePath)
    ensures var call := JanitorCallFor(config, handle, removed);
      JanitorWordsCarry(Words(DestroyArguments(call.handle, call.containerBasePath, call.tcpPort, call.deleteDirectories)),
                        handle, config.tcpPort, config.deleteContainerDirectories)
  {
    var call := JanitorCallFor(config, handle, removed);
    DigitsNoSpace(call.tcpPort);
    TcpPortTextRoundTrip(config.tcpPort);
    DestroyArgumentsReadBack(call.handle, call.containerBasePath, call.tcpPort, call.deleteDirectories, config.tcpPort);
  }

  /**
   * The messaging of a started host: a transport over the host's streams whose one
   * response subscriber forwards to the client, and a client that writes through
   * the transport.
   */
  method NewMessaging(parse: string -> Result<JsonObject, string>) returns (t: MessageTransport, c: MessagingClient)
    ensures fresh(t) && fresh(c) && c.Valid()
    ensures t.parse == parse && t.responseSubscribers == [Subscriber(ResponseForwarder, None)]
    ensures t.requestSubscribers == [] && t.written == []
    ensures c.awaiting == map[] && c.publishers == [] && c.sent == []
  {
    t := new MessageTransport(parse);
    c := new MessagingClient();
    t.SubscribeResponse(Subscriber(ResponseForwarder, None));
  }

  class ContainerHostLauncher {
    /** The process's current directory, where the host executable is looked for. */
    const currentDirectory: string
    /** The environment a started process inherits. */
    const inherited: map<string, string>
    /** How the transport reads a line into a JSON object. */
    const parse: string -> Result<JsonObject, string>
    /** The JSON object the serializer makes of a request. */
    const requestFrame: Request<Json> -> JsonObject
    /** `Path.Combine(Directory.GetCurrentDirectory(), hostExe)`: where the host executable is started from. */
    const hostPath: string
    /** `hostProcess`. */
    var host: OsProcess?
    /** `messageTransport`. */
    var transport: MessageTransport?
    /** `messagingClient`. */
    var client: MessagingClient?
    /** The start infos of the processes started, in order. */
    var spawned: seq<StartInfo>
    /** The exit codes the HostStopped event was raised with, in order. */
    var stoppedEvents: seq<int>
    /** The transports let go of, in order. */
    var releasedTransports: seq<MessageTransport>

    /** The messaging objects exist together, and the client's table is consistent. */
    ghost predicate Valid()
      reads this, client
    {
      (client == null <==> transport == null)
      && (client != null ==> client.Valid())
    }

    constructor (currentDirectory: string, inherited: map<string, string>,
                 parse: string -> Result<JsonObject, string>, requestFrame: Request<Json> -> JsonObject)
      ensures Valid()
      ensures this.currentDirectory == currentDirectory && this.inherited == inherited
      ensures this.parse == parse && this.requestFrame == requestFrame
      ensures hostPath == HostPath(currentDirectory)
      ensures host == null && transport == null && client == null
      ensures spawned == [] && stoppedEvents == [] && releasedTransports == []
    {
      this.currentDirectory := currentDirectory;
      this.inherited := inherited;
      this.parse := parse;
      this.requestFrame := requestFrame;
      this.hostPath := HostPath(currentDirectory);
      host := null;
      transport := null;
      client := null;
      spawned := [];
      stoppedEvents := [];
      releasedTransports := [];
    }

    /** `WasActive`: a host process is held. */
    predicate WasActive()
      reads this
    {
      host != null
    }

    /** `IsActive`: a host process is held and has not exited. */
    function IsActive(): (r: bool)
      reads this, host
      ensures r ==> WasActive()
      ensures r <==> WasActive() && !host.hasExited
    {
      host != null && !host.hasExited
    }

    /** `HostProcessId`: the host's id, or 0 when none is held. */
    function HostProcessId(): (r: int)
      reads this
      ensures !WasActive() ==> r == 0
      ensures WasActive() ==> r == host.id
    {
      if host != null then host.id else 0
    }

    /** `LastExitCode`: the host's exit code once it has exited, else null. */
    function LastExitCode(): (r: Option<int>)
      reads this, host
      ensures r.Some? <==> WasActive() && !IsActive()
      ensures r.Some? ==> r.value == host.exitCode
    {
      if host != null && host.hasExited then Some(host.exitCode) else None
    }

    /**
     * `Start(workingDirectory, jobObjectName)`: when no host is held, starts the
     * host (its id is `pid`) with the job's name as handle and all three streams
     * redirected, then creates the transport over its streams and the client that
     * writes through it, with responses forwarded to the client. The working
     * directory is not used. With a host already held nothing changes.
     */
    method Start(workingDirectory: string, jobObjectName: Option<string>, pid: int)
      requires Valid()
      modifies this
      ensures Valid()
      ensures old(host) != null ==>
        host == old(host) && transport == old(transport) && client == old(client)
        && spawned == old(spawned) && stoppedEvents == old(stoppedEvents) && releasedTransports == old(releasedTransports)
      ensures old(host) == null ==>
        host != null && fresh(host) && host.id == pid && IsActive()
        && spawned == old(spawned) + [HostStartInfo(inherited, hostPath, Some(StartArguments(jobObjectName)))]
        && transport != null && fresh(transport) && transport.parse == parse
        && transport.responseSubscribers == [Subscriber(ResponseForwarder, None)]
        && transport.requestSubscribers == [] && transport.written == []
        && client != null && fresh(client) && client.awaiting == map[] && client.publishers == [] && client.sent == []
        && stoppedEvents == old(stoppedEvents) && releasedTransports == old(releasedTransports)
    {
      if host != null {
        return;
      }
      var startInfo := HostStartInfo(inherited, hostPath, Some(StartArguments(jobObjectName)));
      var p := new OsProcess(pid);
      var t, c := NewMessaging(parse);
      host, spawned, transport, client := p, spawned + [startInfo], t, c;
    }

    /** `DisposeMessageHandling`: disposes the client and lets the transport go, each only when present. */
    method DisposeMessageHandling()
      requires Valid()
      modifies this`client, this`transport, this`releasedTransports, client
      ensures Valid()
      ensures client == null && transport == null
      ensures old(client) != null ==>
        old(client).awaiting == map[] && old(client).publishers == CancelAt(old(client.publishers), old(client.awaiting).Values)
      ensures releasedTransports == old(releasedTransports) + (if old(transport) != null then [old(transport)] else [])
    {
      if client != null {
        client.Dispose();
        client := null;
      }
      if transport != null {
        releasedTransports := releasedTransports + [transport];
        transport := null;
      }
    }

    /**
     * `Stop`: forgets the host, disposes the messaging, then kills the host if it
     * has not exited and releases it. Without a host only the messaging is disposed.
     */
    method Stop()
      requires Valid()
      modifies this`host, this`client, this`transport, this`releasedTransports, client, host
      ensures Valid()
      ensures host == null && client == null && transport == null
      ensures old(client) != null ==>
        old(client).awaiting == map[] && old(client).publishers == CancelAt(old(client.publishers), old(client.awaiting).Values)
      ensures releasedTransports == old(releasedTransports) + (if old(transport) != null then [old(transport)] else [])
      ensures old(host) != null ==>
        old(host).disposed && old(host).killed == (old(host.killed) || !old(host.hasExited))
    {
      var hostCapture := host;
      host := null;
      DisposeMessageHandling();
      if hostCapture != null {
        if !hostCapture.hasExited {
          hostCapture.Kill();
        }
        hostCapture.Dispose();
      }
    }

    /** `Dispose`: stops the host. */
    method Dispose()
      requires Valid()
      modifies this`host, this`client, this`transport, this`releasedTransports, client, host
      ensures Valid()
      ensures host == null && client == null && transport == null
      ensures old(host) != null ==> old(host).disposed
    {
      Stop();
    }

    /**
     * The host's Exited handler: raises HostStopped with the exit code of the host
     * still held (0 when the host was already forgotten by `Stop`), then disposes
     * the messaging.
     */
    method OnHostExited()
      requires Valid()
      modifies this`client, this`transport, this`releasedTransports, this`stoppedEvents, client
      ensures Valid()
      ensures host == old(host) && client == null && transport == null
      ensures stoppedEvents == old(stoppedEvents) + [if host != null && host.hasExited then host.exitCode else 0]
      ensures old(host) == null ==> stoppedEvents[|stoppedEvents| - 1] == 0
      ensures releasedTransports == old(releasedTransports) + (if old(transport) != null then [old(transport)] else [])
    {
      var exitCode := if host != null && host.hasExited then host.exitCode else 0;
      stoppedEvents := stoppedEvents + [exitCode];
      DisposeMessageHandling();
    }

    /** The response subscriber: hands the frame to the client held now; none held dereferences null. */
    method ForwardResponse(frame: JsonObject) returns (outcome: Outcome<Exception>)
      requires Valid()
      modifies client
      ensures Valid()
      ensures client == null ==> outcome == Fail(NullReference)
      ensures client != null ==>
        client.awaiting == old(client.awaiting)
        && (outcome, client.publishers) == AfterPublish(old(client.awaiting), old(client.publishers), frame)
    {
      if client == null {
        return Fail(NullReference);
      }
      outcome := client.PublishResponse(frame);
    }

    /**
     * `SendMessageAsync<T, TResult>(request)`: registers the request with the
     * client, which hands it to the transport to be written as one line. Without a
     * client it dereferences null. `convert` is `ToObject<TResult>()`.
     */
    method SendMessage(request: Request<Json>, convert: JsonObject -> Result<Response<Json>, Exception>) returns (r: Result<nat, Exception>)
      requires Valid()
      modifies client, transport
      ensures Valid()
      ensures client == null ==> r == Failure(NullReference)
      ensures client != null && request.id in old(client.awaiting) ==>
        r == Failure(Argument(DuplicateKeyMessage)) && transport.written == old(transport.written)
        && client.awaiting == old(client.awaiting) && client.publishers == old(client.publishers)
        && client.sent == old(client.sent)
      ensures client != null && request.id !in old(client.awaiting) ==>
        r == Success(|old(client.publishers)|)
        && client.awaiting == old(client.awaiting)[request.id := |old(client.publishers)|]
        && client.publishers == old(client.publishers) + [Publisher(StronglyTyped(convert), Pending)]
        && client.sent == old(client.sent) + [request]
        && transport.written == old(transport.written) + [Compact(JObject(requestFrame(request)))]
    {
      if client == null {
        return Failure(NullReference);
      }
      r := client.SendMessage(request, StronglyTyped(convert), None);
      if r.Success? {
        transport.PublishAsync(requestFrame(request));
      }
    }

    /**
     * `DestroyContainerAsync`: runs the host as janitor (its id is `pid`) with the
     * destroy arguments and waits for it; one that does not exit within the wait
     * (`exitsInTime` false) is killed and a TimeoutException thrown. The process is
     * released either way.
     */
    method DestroyContainer(handle: string, containerBasePath: string, tcpPort: string, deleteDirectories: bool,
                            pid: int, exitsInTime: bool)
      returns (outcome: Outcome<Exception>, janitor: OsProcess)
      modifies this`spawned
      ensures spawned == old(spawned)
        + [NewStartInfo(inherited, Some(hostPath), Some(DestroyArguments(handle, containerBasePath, tcpPort, deleteDirectories)))]
      ensures fresh(janitor) && janitor.id == pid && janitor.disposed
      ensures exitsInTime <==> outcome.Pass?
      ensures !exitsInTime ==> outcome == Fail(Timeout(CleanUpTimeoutMessage)) && janitor.killed
      ensures exitsInTime ==> !janitor.killed
    {
      var arguments := DestroyArguments(handle, containerBasePath, tcpPort, deleteDirectories);
      spawned := spawned + [NewStartInfo(inherited, Some(hostPath), Some(arguments))];
      janitor := new OsProcess(pid);
      if !exitsInTime {
        janitor.Kill();
        outcome := Fail(Timeout(CleanUpTimeoutMessage));
      } else {
        outcome := Pass;
      }
      janitor.Dispose();
    }
  }
}
