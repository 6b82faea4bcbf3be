/**
 * The web application task: its constructor checks the task's arguments (a port,
 * then optionally the runtime version "2.0" or "4.0"), and running it starts
 * iishost.exe from the container directory with the web root and the port.
 */
module WebApplication {
  import opened Wrappers
  import opened Faults
  import opened Extensions
  import opened WinPaths
  import opened CommandLines

  const RuntimeVersionTwo := "2.0"
  const RuntimeVersionFour := "4.0"

  /** What the constructor keeps: the port text and the runtime version, null when none was given. */
  datatype Settings = Settings(port: string, runtimeVersion: Option<string>)

  /** An argument that names a supported runtime version. */
  predicate IsRuntimeVersion(a: Option<string>)
  {
    a == Some(RuntimeVersionTwo) || a == Some(RuntimeVersionFour)
  }

  /**
   * The constructor's checks, in order: the arguments must be neither null nor
   * empty, the first must not be blank, and a second, when present, must be a
   * supported runtime version. Arguments after the second are not looked at.
   */
  function Configure(arguments: Option<seq<Option<string>>>): (r: Result<Settings, Exception>)
    ensures IsNullOrEmpty(arguments) ==> r == Failure(Argument("Expected one or more arguments"))
    ensures r.Success? <==>
      !IsNullOrEmpty(arguments) && !IsNullOrWhiteSpace(arguments.value[0])
      && (|arguments.value| == 1 || IsRuntimeVersion(arguments.value[1]))
    ensures r.Success? ==> arguments.value[0] == Some(r.value.port)
    ensures r.Success? ==> (r.value.runtimeVersion.None? <==> |arguments.value| == 1)
    ensures r.Success? && r.value.runtimeVersion.Some? ==>
      arguments.value[1] == r.value.runtimeVersion && IsRuntimeVersion(r.value.runtimeVersion)
  {
    if IsNullOrEmpty(arguments) then Failure(Argument("Expected one or more arguments"))
    else
      var args := arguments.value;
      if IsNullOrWhiteSpace(args[0]) then Failure(Argument("Expected port as first argument"))
      else if |args| > 1 then
        if args[1] != Some(RuntimeVersionTwo) && args[1] != Some(RuntimeVersionFour) then
          Failure(Argument("Expected runtime version value of '2.0' or '4.0', default is '4.0'."))
        else Success(Settings(args[0].value, args[1]))
      else Success(Settings(args[0].value, None))
  }

  /** Arguments after the second change nothing. */
  lemma ExtraArgumentsIgnored(args: seq<Option<string>>, rest: seq<Option<string>>)
    requires |args| >= 2
    ensures Configure(Some(args + rest)) == Configure(Some(args))
  {
    assert (args + rest)[0] == args[0] && (args + rest)[1] == args[1];
  }

  /** The web root: the container directory's "app" subdirectory. */
  function WebRoot(directory: string): string
  {
    Combine(directory, "app")
  }

  /** The web root option, the root in double quotes. */
  function WebRootOption(directory: string): string
  {
    "--webroot=\"" + WebRoot(directory) + "\""
  }

  /** The port option. */
  function PortOption(port: string): string
  {
    "--port=" + port
  }

  /** The runtime version option. */
  function RuntimeVersionOption(version: string): string
  {
    "--runtimeVersion=" + version
  }

  /** The arguments `DoExecute` passes: the quoted web root and the port, then the runtime version when one is set. */
  function CommandLine(directory: string, s: Settings): string
  {
    WebRootOption(directory) + " " + PortOption(s.port)
    + (if s.runtimeVersion.None? then "" else " " + RuntimeVersionOption(s.runtimeVersion.value))
  }

  /** A process start request: working directory, executable and argument text. */
  datatype Invocation = Invocation(workingDirectory: string, executable: string, arguments: string)

  /** `DoExecute`: runs iishost.exe from the container directory, in that directory. */
  function Execute(directory: string, s: Settings): (r: Invocation)
    ensures r.workingDirectory == directory && r.arguments == CommandLine(directory, s)
    ensures FileName(r.executable) == "iishost.exe"
    ensures |directory| > 0 && !EndsPart(directory[|directory| - 1]) ==> r.executable == directory + "\\iishost.exe"
  {
    assert !IsRooted("iishost.exe") by {
      assert "iishost.exe"[0] == 'i' && "iishost.exe"[1] == 'i';
    }
    CombineFileName(directory, "iishost.exe");
    Invocation(directory, Combine(directory, "iishost.exe"), CommandLine(directory, s))
  }

  /** The web root option of a directory without spaces has none either. */
  lemma WebRootOptionNoSpace(directory: string)
    requires NoSpace(directory)
    ensures |WebRootOption(directory)| > 0 && NoSpace(WebRootOption(directory))
  {
    var root := WebRoot(directory);
    assert NoSpace(root) by {
      if |directory| > 0 && !EndsPart(directory[|directory| - 1]) {
        assert root == directory + "\\" + "app";
        NoSpaceAppend(directory, "\\");
        NoSpaceAppend(directory + "\\", "app");
      } else if |directory| > 0 {
        NoSpaceAppend(directory, "app");
      }
    }
    NoSpaceAppend("--webroot=\"", root);
    NoSpaceAppend("--webroot=\"" + root, "\"");
  }

  /** The port option of a port without spaces is one word. */
  lemma PortOptionWord(port: string)
    requires NoSpace(port)
    ensures |PortOption(port)| > 0 && NoSpace(PortOption(port))
  {
    NoSpaceAppend("--port=", port);
  }

  /** The runtime version option of a version without spaces is one word. */
  lemma RuntimeVersionOptionWord(version: string)
    requires NoSpace(version)
    ensures |RuntimeVersionOption(version)| > 0 && NoSpace(RuntimeVersionOption(version))
  {
    NoSpaceAppend("--runtimeVersion=", version);
  }

  /**
   * Without spaces in the directory, the port or the version, iishost.exe sees
   * exactly two options, or three when a runtime version is set.
   */
  lemma CommandLineOptions(directory: string, s: Settings)
    requires NoSpace(directory) && NoSpace(s.port)
    requires s.runtimeVersion.Some? ==> NoSpace(s.runtimeVersion.value)
    ensures Words(CommandLine(directory, s)) ==
      [WebRootOption(directory), PortOption(s.port)]
      + (if s.runtimeVersion.None? then [] else [RuntimeVersionOption(s.runtimeVersion.value)])
  {
    var root := WebRootOption(directory);
    var port := PortOption(s.port);
    WebRootOptionNoSpace(directory);
    PortOptionWord(s.port);
    if s.runtimeVersion.None? {
      calc {
        Words(CommandLine(directory, s));
        { assert CommandLine(directory, s) == root + " " + port; }
        Words(root + " " + port);
        { TwoWords(root, port); }
        [root, port];
      }
    } else {
      var version := RuntimeVersionOption(s.runtimeVersion.value);
      RuntimeVersionOptionWord(s.runtimeVersion.value);
      calc {
        Words(CommandLine(directory, s));
        { assert CommandLine(directory, s) == root + " " + port + " " + version; }
        Words(root + " " + port + " " + version);
        { ThreeWords(root, port, version); }
        [root, port, version];
      }
    }
  }
}
