/**
 * The container host's MessageDispatcher: a table from method name to handler,
 * looked up without regard to case, and the JSON-RPC response objects built from
 * what a handler returns or throws. The error codes are the reserved codes of
 * section 5.1 of the JSON-RPC 2.0 Specification.
 */
module HostDispatch {
  import opened Wrappers
  import opened Json
  import opened JsonAccess
  import opened Faults
  import opened JsonRpc

  /** "Method not found". */
  const MethodNotFoundCode := -32601
  /** "Internal error". */
  const InternalErrorCode := -32603
  /** The message of an error response built without one. */
  const UnknownErrorMessage := "Unknown error"

  /** An exception a handler throws: its message and stack trace. */
  datatype Thrown = Thrown(message: string, stackTrace: string)

  /**
   * What a handler returns: any value (serialised as a JSON token), a response
   * built by the handler, or null, whose serialisation throws inside the try.
   */
  datatype HandlerValue =
    | Value(token: Json)
    | Prebuilt(response: Response<Json>)
    /** The handler returned null; `JToken.FromObject(null)` throws ArgumentNullException with this stack trace. */
    | NullValue(stackTrace: string)

  /** The message of the ArgumentNullException that `JToken.FromObject(null)` throws for its parameter `o`. */
  const NullResultMessage := "Value cannot be null.\r\nParameter name: o"

  /** The end of a handler call: a returned value or a thrown exception. */
  datatype HandlerOutcome = Returned(value: HandlerValue) | Threw(thrown: Thrown)

  /** A registered callback, applied to the whole request object. */
  type Handler = JsonObject -> HandlerOutcome

  /** The upper-case form of an ASCII letter; every other character is its own. */
  function UpperChar(c: char): char
  {
    if 'a' <= c <= 'z' then (c as int - 'a' as int + 'A' as int) as char else c
  }

  /** The key a name is stored under in a table compared with `StringComparer.OrdinalIgnoreCase`. */
  function Fold(s: string): (r: string)
    ensures |r| == |s|
    ensures forall i :: 0 <= i < |s| ==> r[i] == UpperChar(s[i])
  {
    if |s| == 0 then "" else [UpperChar(s[0])] + Fold(s[1..])
  }

  /** Two names that differ at most in the case of letters. */
  predicate SameIgnoringCase(a: string, b: string)
  {
    |a| == |b| && forall i :: 0 <= i < |a| ==> UpperChar(a[i]) == UpperChar(b[i])
  }

  /** Two names share a table key exactly when they differ at most in case. */
  lemma FoldIdentifiesCaseVariants(a: string, b: string)
    ensures Fold(a) == Fold(b) <==> SameIgnoringCase(a, b)
  {
    if Fold(a) == Fold(b) {
      assert forall i :: 0 <= i < |a| ==> Fold(a)[i] == Fold(b)[i];
    }
  }

  /** A member of a response's "error" object, or None when the response has no error object or the object lacks the member. */
  function ErrorField(r: JsonObject, key: string): Option<Json>
  {
    match Get(r, "error")
    case Some(JObject(e)) => Get(e, key)
    case _ => None
  }

  /** The "error" member of an error response: the code, the message and the data, in that order. */
  function ErrorObject(code: int, message: string, data: Json): (e: JsonObject)
    ensures Get(e, "code") == Some(JNumber(code))
    ensures Get(e, "message") == Some(JString(message))
    ensures Get(e, "data") == Some(data)
  {
    ErrorMemberNamesDistinct();
    GetThree("code", JNumber(code), "message", JString(message), "data", data, "result");
    [Property("code", JNumber(code)), Property("message", JString(message)), Property("data", data)]
  }

  /** A response object with the version, the id and one more member, `body`, named `kind`. */
  function ResponseObject(id: Json, kind: string, body: Json): (r: JsonObject)
    requires kind == "error" || kind == "result"
    ensures Get(r, "jsonrpc") == Some(JString(Version))
    ensures Get(r, "id") == Some(id)
    ensures Get(r, kind) == Some(body)
    ensures Get(r, if kind == "error" then "result" else "error").None?
  {
    ResponseMemberNamesDistinct();
    GetThree("jsonrpc", JString(Version), "id", id, kind, body, if kind == "error" then "result" else "error");
    [Property("jsonrpc", JString(Version)), Property("id", id), Property(kind, body)]
  }

  /**
   * `ErrorResponse(id, code, message, data)`: a response object echoing the id,
   * with an error member holding the code, the message ("Unknown error" when none
   * is given) and the data (a JSON null when none is given).
   */
  function ErrorResponse(id: Option<Json>, code: int, message: Option<string>, data: Option<Json>): (r: JsonObject)
    ensures Get(r, "jsonrpc") == Some(JString(Version))
    ensures Get(r, "id") == Some(ValueOrNull(id))
    ensures !Has(r, "result") && Has(r, "error")
    ensures ErrorField(r, "code") == Some(JNumber(code))
    ensures message.Some? ==> ErrorField(r, "message") == Some(JString(message.value))
    ensures message.None? ==> ErrorField(r, "message") == Some(JString(UnknownErrorMessage))
    ensures ErrorField(r, "data") == Some(ValueOrNull(data))
  {
    ResponseObject(ValueOrNull(id), "error", JObject(ErrorObject(code, message.GetOr(UnknownErrorMessage), ValueOrNull(data))))
  }

  /** `InternalError(request, ex)`: code -32603, the exception's message, its stack trace as data, the request's id. */
  function InternalError(request: JsonObject, thrown: Thrown): (r: JsonObject)
    ensures Get(r, "id") == Some(ValueOrNull(Get(request, "id"))) && !Has(r, "result")
    ensures ErrorField(r, "code") == Some(JNumber(-32603))
    ensures ErrorField(r, "message") == Some(JString(thrown.message))
    ensures ErrorField(r, "data") == Some(JString(thrown.stackTrace))
  {
    ErrorResponse(Get(request, "id"), InternalErrorCode, Some(thrown.message), Some(JString(thrown.stackTrace)))
  }

  /** `MethodNotFoundError(request, name)`: code -32601, a message naming the method, null data, the request's id. */
  function MethodNotFoundError(request: JsonObject, name: string): (r: JsonObject)
    ensures Get(r, "id") == Some(ValueOrNull(Get(request, "id"))) && !Has(r, "result")
    ensures ErrorField(r, "code") == Some(JNumber(-32601))
    ensures ErrorField(r, "message") == Some(JString("The method '" + name + "' does not exist."))
    ensures ErrorField(r, "data") == Some(JNull)
  {
    ErrorResponse(Get(request, "id"), MethodNotFoundCode, Some("The method '" + name + "' does not exist."), None)
  }

  /** `SuccessResponse(id, result)`: a response object echoing the id, with the result member and no error. */
  function SuccessResponse(id: Option<Json>, result: Json): (r: JsonObject)
    ensures Get(r, "jsonrpc") == Some(JString(Version))
    ensures Get(r, "id") == Some(ValueOrNull(id))
    ensures Get(r, "result") == Some(result)
    ensures !Has(r, "error")
  {
    ResponseObject(ValueOrNull(id), "result", result)
  }

  /**
   * The response for a handler's outcome: a prebuilt response serialised by
   * `JObject.FromObject`, any other value wrapped, an exception as an internal
   * error. A null value fails to serialise, which is an exception too.
   */
  function Respond(request: JsonObject, outcome: HandlerOutcome): (r: JsonObject)
    ensures outcome.Returned? && outcome.value.Value? ==>
      Get(r, "result") == Some(outcome.value.token) && Get(r, "id") == Some(ValueOrNull(Get(request, "id")))
    ensures outcome.Threw? ==>
      Get(r, "id") == Some(ValueOrNull(Get(request, "id")))
      && ErrorField(r, "code") == Some(JNumber(-32603)) && ErrorField(r, "message") == Some(JString(outcome.thrown.message))
    ensures outcome.Returned? && outcome.value.NullValue? ==>
      Get(r, "id") == Some(ValueOrNull(Get(request, "id"))) && ErrorField(r, "code") == Some(JNumber(-32603))
  {
    match outcome
    case Returned(Prebuilt(response)) => FrameAsWritten(response)
    case Returned(Value(v)) => SuccessResponse(Get(request, "id"), v)
    case Returned(NullValue(trace)) => InternalError(request, Thrown(NullResultMessage, trace))
    case Threw(t) => InternalError(request, t)
  }

  /** The request's "method" member reads as a string that is not null. */
  predicate MethodNamed(request: JsonObject)
  {
    AsString(Get(request, "method")).Success? && AsString(Get(request, "method")).value.Some?
  }

  /** The method name of a request whose "method" member reads as a string. */
  function MethodName(request: JsonObject): string
    requires MethodNamed(request)
  {
    AsString(Get(request, "method")).value.value
  }

  /**
   * `Dispatch(request)` against a table: the method name is read with a `(string)`
   * cast; a null name makes the table lookup throw, which escapes; an unknown name
   * gives a method-not-found error; a known name runs its handler.
   */
  function DispatchWith(methods: map<string, Handler>, request: JsonObject): (r: Result<JsonObject, Exception>)
    ensures r.Success? <==> MethodNamed(request)
    ensures MethodNamed(request) && Fold(MethodName(request)) !in methods ==>
      ErrorField(r.value, "code") == Some(JNumber(-32601)) && Get(r.value, "id") == Some(ValueOrNull(Get(request, "id")))
  {
    match AsString(Get(request, "method"))
    case Failure(e) => Failure(e)
    case Success(None) => Failure(ArgumentNull("key"))
    case Success(Some(name)) =>
      if Fold(name) in methods then Success(Respond(request, methods[Fold(name)](request)))
      else Success(MethodNotFoundError(request, name))
  }

  /** The handler of a typed registration: the request is converted to the handler's type first; a failed conversion is an exception inside the handler. */
  function TypedHandler<T>(convert: JsonObject -> Result<T, Thrown>, callback: T -> HandlerOutcome): Handler
  {
    (request: JsonObject) =>
      match convert(request)
      case Failure(t) => Threw(t)
      case Success(v) => callback(v)
  }

  /** An unregistered method name yields a -32601 error that names the method and echoes the id. */
  lemma UnknownMethodNotFound(methods: map<string, Handler>, request: JsonObject, name: string)
    requires Get(request, "method") == Some(JString(name)) && Fold(name) !in methods
    ensures DispatchWith(methods, request) == Success(MethodNotFoundError(request, name))
  {
    assert AsString(Get(request, "method")) == Success(Some(name));
  }

  /** A name registered in any case is found under any other casing of it, and its handler runs on the request. */
  lemma LookupIgnoresCase(methods: map<string, Handler>, request: JsonObject, registered: string, name: string)
    requires Fold(registered) in methods && SameIgnoringCase(name, registered)
    requires Get(request, "method") == Some(JString(name))
    ensures DispatchWith(methods, request) == Success(Respond(request, methods[Fold(registered)](request)))
  {
    FoldIdentifiesCaseVariants(name, registered);
  }

  /**
   * A handler's outcome decides the response: a plain value is wrapped as the
   * result under the request's id; a prebuilt response is serialised with its
   * members as the response classes name them; a thrown exception becomes a
   * -32603 error with its message and its stack trace as data, and so does a
   * null value, with the message of the ArgumentNullException its serialisation throws.
   */
  lemma HandlerOutcomeResponse(methods: map<string, Handler>, request: JsonObject, name: string)
    requires Get(request, "method") == Some(JString(name)) && Fold(name) in methods
    ensures var out := methods[Fold(name)](request);
      DispatchWith(methods, request) ==
        Success(if out.Threw? then InternalError(request, out.thrown)
                else if out.value.Prebuilt? then FrameAsWritten(out.value.response)
                else if out.value.NullValue? then InternalError(request, Thrown(NullResultMessage, out.value.stackTrace))
                else SuccessResponse(Get(request, "id"), out.value.token))
  {
    assert AsString(Get(request, "method")) == Success(Some(name));
  }

  /** Every response the dispatcher builds itself carries the request's id; only a prebuilt response carries its own. */
  lemma ResponsesEchoId(methods: map<string, Handler>, request: JsonObject)
    requires DispatchWith(methods, request).Success?
    ensures var name := AsString(Get(request, "method")).value.value;
      !(Fold(name) in methods && methods[Fold(name)](request).Returned? && methods[Fold(name)](request).value.Prebuilt?) ==>
        Get(DispatchWith(methods, request).value, "id") == Some(ValueOrNull(Get(request, "id")))
  {
  }

  /** A method name that is missing or JSON null makes the lookup throw ArgumentNullException out of Dispatch. */
  lemma NullMethodNameEscapes(methods: map<string, Handler>, request: JsonObject)
    requires Get(request, "method").None? || Get(request, "method") == Some(JNull)
    ensures DispatchWith(methods, request) == Failure(ArgumentNull("key"))
  {
  }

  class MessageDispatcher {
    /** `methods`: handlers keyed by the case-folded method name. */
    var methods: map<string, Handler>

    constructor ()
      ensures methods == map[]
    {
      methods := map[];
    }

    /** `Dispatch(request)`. */
    function Dispatch(request: JsonObject): (r: Result<JsonObject, Exception>)
      reads this
      ensures r.Success? <==> MethodNamed(request)
      ensures MethodNamed(request) && Fold(MethodName(request)) !in methods ==>
        ErrorField(r.value, "code") == Some(JNumber(-32601))
    {
      DispatchWith(methods, request)
    }

    /**
     * `RegisterMethod(name, callback)`: `Dictionary.Add` under the case-folded name;
     * a null name or a name already registered in any casing throws and leaves the
     * table as it was.
     */
    method RegisterMethod(name: Option<string>, callback: Handler) returns (outcome: Outcome<Exception>)
      modifies this
      ensures name.None? ==> outcome == Fail(ArgumentNull("key")) && methods == old(methods)
      ensures name.Some? && Fold(name.value) in old(methods) ==>
        outcome == Fail(Argument(DuplicateKeyMessage)) && methods == old(methods)
      ensures name.Some? && Fold(name.value) !in old(methods) ==>
        outcome == Pass && methods == old(methods)[Fold(name.value) := callback]
    {
      if name.None? {
        return Fail(ArgumentNull("key"));
      }
      var key := Fold(name.value);
      if key in methods {
        return Fail(Argument(DuplicateKeyMessage));
      }
      methods := methods[key := callback];
      outcome := Pass;
    }

    /** `RegisterMethod<T>(name, callback)`: registers a handler that converts the request to `T` and then calls `callback`. */
    method RegisterTypedMethod<T>(name: Option<string>, convert: JsonObject -> Result<T, Thrown>, callback: T -> HandlerOutcome)
      returns (outcome: Outcome<Exception>)
      modifies this
      ensures outcome.Pass? <==> name.Some? && Fold(name.value) !in old(methods)
      ensures outcome.Fail? ==> methods == old(methods)
      ensures outcome.Pass? ==> methods == old(methods)[Fold(name.value) := TypedHandler(convert, callback)]
    {
      outcome := RegisterMethod(name, TypedHandler(convert, callback));
    }
  }
}
