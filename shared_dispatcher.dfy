/**
 * The shared, asynchronous MessageDispatcher: the same case-insensitive table and
 * response builders as the host's dispatcher, with handlers that return a task.
 * A task that faults and a handler that throws before returning its task are
 * handled alike; awaiting a null task throws NullReferenceException inside the
 * same try. The dispatch result is the outcome of the returned task.
 */
module SharedDispatch {
  import opened Wrappers
  import opened Json
  import opened JsonAccess
  import opened Faults
  import opened JsonRpc
  import opened HostDispatch

  /** What calling an asynchronous handler gives. */
  datatype AsyncOutcome =
    | Completed(value: HandlerValue)
    | FaultedTask(thrown: Thrown)
    | ThrewSynchronously(thrown: Thrown)
    /** The handler returned a null task; awaiting it throws NullReferenceException with this stack trace. */
    | NullTask(stackTrace: string)

  type AsyncHandler = JsonObject -> AsyncOutcome

  /** The message of the NullReferenceException that awaiting a null task throws. */
  const NullReferenceMessage := "Object reference not set to an instance of an object."

  /** `await callback(request)` inside the try: the awaited value, or the exception the await rethrows. */
  function Await(outcome: AsyncOutcome): (r: HandlerOutcome)
    ensures outcome.Completed? <==> r.Returned?
    ensures outcome.Completed? ==> r.value == outcome.value
    ensures (outcome.FaultedTask? || outcome.ThrewSynchronously?) ==> r == Threw(outcome.thrown)
  {
    match outcome
    case Completed(v) => Returned(v)
    case FaultedTask(t) => Threw(t)
    case ThrewSynchronously(t) => Threw(t)
    case NullTask(trace) => Threw(Thrown(NullReferenceMessage, trace))
  }

  /**
   * `DispatchAsync(request)` against a table: the outcome of the task it returns.
   * An exception raised before any await (a null method name) faults that task.
   */
  function DispatchAsyncWith(methods: map<string, AsyncHandler>, request: JsonObject): (r: Result<JsonObject, Exception>)
    ensures r.Success? <==> MethodNamed(request)
    ensures MethodNamed(request) && Fold(MethodName(request)) !in methods ==>
      ErrorField(r.value, "code") == Some(JNumber(-32601)) && Get(r.value, "id") == Some(ValueOrNull(Get(request, "id")))
  {
    match AsString(Get(request, "method"))
    case Failure(e) => Failure(e)
    case Success(None) => Failure(ArgumentNull("key"))
    case Success(Some(name)) =>
      if Fold(name) in methods then Success(Respond(request, Await(methods[Fold(name)](request))))
      else Success(MethodNotFoundError(request, name))
  }

  /** An asynchronous handler that completes with what a synchronous handler returns and faults with what it throws. */
  function Lift(h: Handler): (r: AsyncHandler)
    ensures forall request :: Await(r(request)) == h(request)
  {
    (request: JsonObject) =>
      match h(request)
      case Returned(v) => Completed(v)
      case Threw(t) => FaultedTask(t)
  }

  /** The handler of a typed registration: the conversion to `T` runs synchronously inside the callback. */
  function TypedAsyncHandler<T>(convert: JsonObject -> Result<T, Thrown>, callback: T -> AsyncOutcome): AsyncHandler
  {
    (request: JsonObject) =>
      match convert(request)
      case Failure(t) => ThrewSynchronously(t)
      case Success(v) => callback(v)
  }

  /**
   * The two dispatchers agree: dispatching through a table of lifted handlers gives
   * exactly what the host's dispatcher gives through the original handlers.
   */
  lemma AgreesWithHostDispatcher(methods: map<string, Handler>, request: JsonObject)
    ensures DispatchAsyncWith(map k | k in methods :: Lift(methods[k]), request) == DispatchWith(methods, request)
  {
    var lifted := map k | k in methods :: Lift(methods[k]);
    match AsString(Get(request, "method")) {
      case Success(Some(name)) =>
        if Fold(name) in methods {
          assert Await(lifted[Fold(name)](request)) == methods[Fold(name)](request);
        }
      case _ =>
    }
  }

  /**
   * A faulted task, a handler that throws synchronously and a null task all give a
   * -32603 error carrying the exception's message and stack trace and the request's id.
   */
  lemma FailedHandlerInternalError(methods: map<string, AsyncHandler>, request: JsonObject, name: string)
    requires Get(request, "method") == Some(JString(name)) && Fold(name) in methods
    requires !methods[Fold(name)](request).Completed?
    ensures var r := DispatchAsyncWith(methods, request);
      var out := Await(methods[Fold(name)](request));
      r.Success? && out.Threw?
      && Get(r.value, "id") == Some(ValueOrNull(Get(request, "id")))
      && ErrorField(r.value, "code") == Some(JNumber(-32603))
      && ErrorField(r.value, "message") == Some(JString(out.thrown.message))
      && ErrorField(r.value, "data") == Some(JString(out.thrown.stackTrace))
  {
    assert AsString(Get(request, "method")) == Success(Some(name));
  }

  /**
   * An awaited value is wrapped as a success response under the request's id; an
   * awaited response is serialised as the response classes name its members; an
   * awaited null gives the -32603 error of the ArgumentNullException its
   * serialisation throws.
   */
  lemma CompletedHandlerResponse(methods: map<string, AsyncHandler>, request: JsonObject, name: string)
    requires Get(request, "method") == Some(JString(name)) && Fold(name) in methods
    requires methods[Fold(name)](request).Completed?
    ensures var v := methods[Fold(name)](request).value;
      var r := DispatchAsyncWith(methods, request);
      r.Success?
      && (v.Value? ==> Get(r.value, "result") == Some(v.token) && Get(r.value, "id") == Some(ValueOrNull(Get(request, "id"))))
      && (v.Prebuilt? ==> r.value == FrameAsWritten(v.response))
      && (v.NullValue? ==>
            Get(r.value, "id") == Some(ValueOrNull(Get(request, "id")))
            && ErrorField(r.value, "code") == Some(JNumber(-32603))
            && ErrorField(r.value, "message") == Some(JString(NullResultMessage))
            && ErrorField(r.value, "data") == Some(JString(v.stackTrace)))
  {
    assert AsString(Get(request, "method")) == Success(Some(name));
  }

  /** An unregistered method name yields the -32601 method-not-found error, as in the host's dispatcher. */
  lemma UnknownAsyncMethodNotFound(methods: map<string, AsyncHandler>, request: JsonObject, name: string)
    requires Get(request, "method") == Some(JString(name)) && Fold(name) !in methods
    ensures DispatchAsyncWith(methods, request) == Success(MethodNotFoundError(request, name))
  {
    assert AsString(Get(request, "method")) == Success(Some(name));
  }

  class MessageDispatcher {
    /** `methods`: asynchronous handlers keyed by the case-folded method name. */
    var methods: map<string, AsyncHandler>

    constructor ()
      ensures methods == map[]
    {
      methods := map[];
    }

    /** `DispatchAsync(request)`. */
    function DispatchAsync(request: JsonObject): (r: Result<JsonObject, Exception>)
      reads this
      ensures r.Success? <==> MethodNamed(request)
      ensures MethodNamed(request) && Fold(MethodName(request)) !in methods ==>
        ErrorField(r.value, "code") == Some(JNumber(-32601))
    {
      DispatchAsyncWith(methods, request)
    }

    /** `RegisterMethod(name, callback)`: a null name or a name already registered in any casing throws; the table is then unchanged. */
    method RegisterMethod(name: Option<string>, callback: AsyncHandler) returns (outcome: Outcome<Exception>)
      modifies this
      ensures name.None? ==> outcome == Fail(ArgumentNull("key")) && methods == old(methods)
      ensures name.Some? && Fold(name.value) in old(methods) ==>
        outcome == Fail(Argument(DuplicateKeyMessage)) && methods == old(methods)
      ensures name.Some? && Fold(name.value) !in old(methods) ==>
        outcome == Pass && methods == old(methods)[Fold(name.value) := callback]
    {
      if name.None? {
        return Fail(ArgumentNull("key"));
      }
      var key := Fold(name.value);
      if key in methods {
        return Fail(Argument(DuplicateKeyMessage));
      }
      methods := methods[key := callback];
      outcome := Pass;
    }

    /** `RegisterMethod<T>(name, callback)`: registers a handler that converts the request to `T` and then calls `callback`. */
    method RegisterTypedMethod<T>(name: Option<string>, convert: JsonObject -> Result<T, Thrown>, callback: T -> AsyncOutcome)
      returns (outcome: Outcome<Exception>)
      modifies this
      ensures outcome.Pass? <==> name.Some? && Fold(name.value) !in old(methods)
      ensures outcome.Fail? ==> methods == old(methods)
      ensures outcome.Pass? ==> methods == old(methods)[Fold(name.value) := TypedAsyncHandler(convert, callback)]
    {
      outcome := RegisterMethod(name, TypedAsyncHandler(convert, callback));
    }
  }
}
