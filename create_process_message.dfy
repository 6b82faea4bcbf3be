/**
 * The CreateProcess message pair: the parameters copied out of a start info and
 * back, the request that carries them under the method name "CreateProcess",
 * and the response that carries the new process's id.
 */
module CreateProcessMessage {
  import opened Wrappers
  import opened Json
  import opened JsonRpc
  import opened StartInfos

  /** The method name both request constructors use. */
  const MethodName := "CreateProcess"

  /** CreateProcessParams: the file name and arguments, each possibly null. */
  datatype Params = Params(fileName: Option<string>, arguments: Option<string>)

  /** `new CreateProcessParams(si)`: the start info's file name and arguments. */
  function FromStartInfo(si: StartInfo): (p: Params)
    ensures p.fileName.Some? && p.arguments.Some?
  {
    Params(Some(si.fileName), Some(si.arguments))
  }

  /**
   * `ToProcessStartInfo()`: a default start info with the file name and arguments
   * set, no shell and no window.
   */
  function ToProcessStartInfo(p: Params, inherited: map<string, string>): (si: StartInfo)
    ensures !si.useShellExecute && si.createNoWindow
    ensures si.fileName == OrEmpty(p.fileName) && si.arguments == OrEmpty(p.arguments)
    ensures si.workingDirectory == "" && si.userName == "" && si.password.None? && !si.loadUserProfile
    ensures !si.redirectStandardInput && !si.redirectStandardOutput && !si.redirectStandardError
    ensures si.environment == inherited
  {
    NewStartInfo(inherited, p.fileName, p.arguments).(useShellExecute := false, createNoWindow := true)
  }

  /** Parameters to start info and back: a null file name or argument string comes back empty; anything else comes back unchanged. */
  lemma ParamsRoundTrip(p: Params, inherited: map<string, string>)
    ensures FromStartInfo(ToProcessStartInfo(p, inherited)) == Params(Some(OrEmpty(p.fileName)), Some(OrEmpty(p.arguments)))
    ensures p.fileName.Some? && p.arguments.Some? ==> FromStartInfo(ToProcessStartInfo(p, inherited)) == p
  {
  }

  /** Start info to parameters and back reproduces the file name and arguments. */
  lemma StartInfoRoundTrip(si: StartInfo, inherited: map<string, string>)
    ensures var back := ToProcessStartInfo(FromStartInfo(si), inherited);
      back.fileName == si.fileName && back.arguments == si.arguments
  {
  }

  /** `new CreateProcessRequest()`: the method "CreateProcess" and no parameters. */
  function NewRequest(id: string): (r: Request<Params>)
    ensures r.id == id && r.methodName == MethodName && r.params.None?
  {
    Request(id, MethodName, None)
  }

  /** `new CreateProcessRequest(startInfo)`: the method "CreateProcess" with parameters copied from the start info. */
  function RequestFor(id: string, si: StartInfo): (r: Request<Params>)
    ensures r.id == id && r.methodName == MethodName
    ensures r.params.Some? && OrEmpty(r.params.value.fileName) == si.fileName && OrEmpty(r.params.value.arguments) == si.arguments
  {
    Request(id, MethodName, Some(FromStartInfo(si)))
  }

  /** CreateProcessResult: the id of the started process. */
  datatype CreateProcessResult = CreateProcessResult(id: int)

  /** The result as `JObject.FromObject` writes it: one member named after the property, "Id". */
  function ResultToken(result: CreateProcessResult): (t: Json)
    ensures t.JObject? && Get(t.props, "Id") == Some(JNumber(result.id))
  {
    var props := [Property("Id", JNumber(result.id))];
    GetFirst(props, 0, "Id");
    JObject(props)
  }

  /** `new CreateProcessResponse(id, result)`: a typed response with the given id and result. */
  function NewResponse(id: Option<string>, result: CreateProcessResult): (r: Response<CreateProcessResult>)
    ensures r.Typed? && r.id == id && r.result == result
    ensures r.JsonRpc() == Version
  {
    Typed(id, result)
  }
}
