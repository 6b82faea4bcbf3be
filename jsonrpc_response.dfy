/**
 * The JSON-RPC 2.0 message records: a request, the three response shapes
 * (plain, typed with a result, error with an error info) and the JSON object a
 * response becomes when serialised.
 */
module JsonRpc {
  import opened Wrappers
  import opened Json

  /** The protocol version every response reports in its "jsonrpc" member. */
  const Version := "2.0"

  /** JsonRpcErrorInfo: code, message and data; message and data may be null. */
  datatype ErrorInfo = ErrorInfo(code: int, message: Option<string>, data: Option<string>)

  /**
   * A response. Every shape carries the id given at construction (a string that
   * may be null); the typed shape adds a result, the error shape an error info.
   */
  datatype Response<+T> =
    | Plain(id: Option<string>)
    | Typed(id: Option<string>, result: T)
    | ErrorResponse(id: Option<string>, error: ErrorInfo)
  {
    /** The "jsonrpc" property: the same for every response. */
    function JsonRpc(): (v: string)
      ensures v == Version
    {
      Version
    }
  }

  /** `new JsonRpcErrorResponse(id)`: an error response with a fresh error info (code 0, no message, no data). */
  function NewErrorResponse<T>(id: Option<string>): (r: Response<T>)
    ensures r.ErrorResponse? && r.id == id
    ensures r.error.code == 0 && r.error.message.None? && r.error.data.None?
  {
    ErrorResponse(id, ErrorInfo(0, None, None))
  }

  /**
   * A request: id, method name and optional parameters. JsonRpcRequest itself is
   * not part of this model; its id is taken as given.
   */
  datatype Request<+P> = Request(id: string, methodName: string, params: Option<P>)

  /** A nullable string as a JSON token: C# null serialises as a JSON null. */
  function StringToken(s: Option<string>): (t: Json)
    ensures s.None? <==> t == JNull
    ensures forall v :: s == Some(v) <==> t == JString(v)
  {
    match s
    case None => JNull
    case Some(v) => JString(v)
  }

  /**
   * The error info as `JObject.FromObject` writes it: the class declares its
   * properties as Code, Message and Data and nothing renames them, so the keys
   * keep that capitalisation.
   */
  function ErrorInfoAsWritten(e: ErrorInfo): JsonObject
  {
    [Property("Code", JNumber(e.code)), Property("Message", StringToken(e.message)), Property("Data", StringToken(e.data))]
  }

  /** The error info under the lower-case member names of section 5.1 of the JSON-RPC 2.0 Specification. */
  function ErrorInfoObject(e: ErrorInfo): JsonObject
  {
    [Property("code", JNumber(e.code)), Property("message", StringToken(e.message)), Property("data", StringToken(e.data))]
  }

  /** Each member of the error info is found under its protocol name. */
  lemma ErrorInfoLookups(e: ErrorInfo)
    ensures Get(ErrorInfoObject(e), "code") == Some(JNumber(e.code))
    ensures Get(ErrorInfoObject(e), "message") == Some(StringToken(e.message))
    ensures Get(ErrorInfoObject(e), "data") == Some(StringToken(e.data))
  {
    ErrorMemberNamesDistinct();
    GetThree("code", JNumber(e.code), "message", StringToken(e.message), "data", StringToken(e.data), "result");
  }

  /** Under the capitalised names, none of the protocol names is found. */
  lemma ErrorInfoAsWrittenLookups(e: ErrorInfo)
    ensures Get(ErrorInfoAsWritten(e), "code").None?
    ensures Get(ErrorInfoAsWritten(e), "message").None?
    ensures Get(ErrorInfoAsWritten(e), "data").None?
  {
  }

  /** The members every serialised response starts with. */
  function Header<T>(r: Response<T>): JsonObject
  {
    [Property("jsonrpc", JString(Version)), Property("id", StringToken(r.id))]
  }

  /** `JObject.FromObject(response)` as the response classes are written (error info keys capitalised). */
  function FrameAsWritten(r: Response<Json>): JsonObject
  {
    match r
    case Plain(_) => Header(r)
    case Typed(_, result) => Header(r) + [Property("result", result)]
    case ErrorResponse(_, e) => Header(r) + [Property("error", JObject(ErrorInfoAsWritten(e)))]
  }

  /** `JObject.FromObject(response)` with the error info under its protocol names. */
  function Frame(r: Response<Json>): (f: JsonObject)
    ensures Get(f, "jsonrpc") == Some(JString(Version))
    ensures Get(f, "id") == Some(StringToken(r.id))
    ensures Has(f, "result") <==> r.Typed?
    ensures Has(f, "error") <==> r.ErrorResponse?
    ensures r.Typed? ==> Get(f, "result") == Some(r.result)
    ensures r.ErrorResponse? ==> Get(f, "error") == Some(JObject(ErrorInfoObject(r.error)))
  {
    HeaderLookups(r);
    match r
    case Plain(_) => Header(r)
    case Typed(_, result) =>
      MemberAfterHeader(Header(r), "result", result);
      Header(r) + [Property("result", result)]
    case ErrorResponse(_, e) =>
      MemberAfterHeader(Header(r), "error", JObject(ErrorInfoObject(e)));
      Header(r) + [Property("error", JObject(ErrorInfoObject(e)))]
  }

  /** The two serialisations differ only in the error info, so a response without one is framed alike by both. */
  lemma FramesAgreeWithoutError(r: Response<Json>)
    requires !r.ErrorResponse?
    ensures FrameAsWritten(r) == Frame(r)
  {
  }

  /** The header holds the version and the id, and neither a result nor an error. */
  lemma HeaderLookups<T>(r: Response<T>)
    ensures Get(Header(r), "jsonrpc") == Some(JString(Version))
    ensures Get(Header(r), "id") == Some(StringToken(r.id))
    ensures Get(Header(r), "result").None? && Get(Header(r), "error").None?
  {
    GetFirst(Header(r), 0, "jsonrpc");
    GetFirst(Header(r), 1, "id");
  }

  /** A result or error member after a header: the header's lookups are kept, the member is found, the other is absent. */
  lemma MemberAfterHeader(head: JsonObject, name: string, value: Json)
    requires name == "result" || name == "error"
    requires Get(head, "result").None? && Get(head, "error").None?
    ensures var f := head + [Property(name, value)];
      Get(f, "jsonrpc") == Get(head, "jsonrpc") && Get(f, "id") == Get(head, "id")
      && Get(f, name) == Some(value)
      && Get(f, if name == "result" then "error" else "result").None?
  {
    var tail := [Property(name, value)];
    var other := if name == "result" then "error" else "result";
    GetAppend(head, tail, "jsonrpc");
    GetAppend(head, tail, "id");
    GetAppend(head, tail, name);
    GetAppend(head, tail, other);
    GetFirst(tail, 0, name);
  }

  /** The member names of a response are pairwise different. */
  lemma ResponseMemberNamesDistinct()
    ensures "jsonrpc" != "id" && "jsonrpc" != "error" && "jsonrpc" != "result"
    ensures "id" != "error" && "id" != "result" && "error" != "result"
  {
  }

  /** The member names of an error object are pairwise different, and none is "result". */
  lemma ErrorMemberNamesDistinct()
    ensures "code" != "message" && "code" != "data" && "message" != "data"
    ensures "result" != "code" && "result" != "message" && "result" != "data"
  {
  }
}
