/**
 * MessagingClient: sends requests through a transport handler and correlates the
 * responses that come back with the requests still waiting for one, through a
 * table from request id to the publisher that completes the caller's task.
 */
module Messaging {
  import opened Wrappers
  import opened Json
  import opened JsonAccess
  import opened Faults
  import opened JsonRpc

  /**
   * Which send created a publisher: the untyped one, or the strongly typed one for
   * a response type `TResponse`, given by its `response.ToObject<TResponse>()`:
   * the response object read from a frame, or the exception the conversion throws.
   */
  datatype PublisherKind =
    | Untyped
    | StronglyTyped(convert: JsonObject -> Result<Response<Json>, Exception>)

  /** The state of the task a publisher completes (a TaskCompletionSource). */
  datatype TaskState = Pending | Completed(response: Response<Json>) | Faulted(error: Exception)

  /** A response publisher: its kind and the state of its task. */
  datatype Publisher = Publisher(kind: PublisherKind, task: TaskState)

  /** A frame is an error response exactly when it has an "error" member, whatever its value. */
  predicate IsErrorResponse(frame: JsonObject)
  {
    Has(frame, "error")
  }

  /**
   * Reads an error frame into a JsonRpcErrorResponse: the id's text, the error's
   * code as a 32-bit integer, the message's text, and the data's text or null when
   * the error has no "data" member. Each step throws what the token access throws.
   */
  function BuildErrorResponse(frame: JsonObject): (r: Result<Response<Json>, Exception>)
    ensures !Has(frame, "id") ==> r == Failure(NullReference)
    ensures r.Success? ==> r.value.ErrorResponse? && r.value.id.Some? && r.value.error.message.Some?
    ensures r.Success? ==> IsInt32(r.value.error.code)
  {
    match ToText(Get(frame, "id"))
    case Failure(e) => Failure(e)
    case Success(id) =>
      var error := Get(frame, "error");
      match IndexOpt(error, "code")
      case Failure(e) => Failure(e)
      case Success(codeToken) =>
        match AsInt32(codeToken)
        case Failure(e) => Failure(e)
        case Success(code) =>
          match IndexOpt(error, "message")
          case Failure(e) => Failure(e)
          case Success(messageToken) =>
            match ToText(messageToken)
            case Failure(e) => Failure(e)
            case Success(message) =>
              match IndexOpt(error, "data")
              case Failure(e) => Failure(e)
              case Success(dataToken) =>
                var data := if dataToken.None? then None else Some(Text(dataToken.value));
                Success(ErrorResponse(Some(id), ErrorInfo(code, Some(message), data)))
  }

  /** `tcs.SetResult`: completes a pending task; a completed task throws. */
  function SetResult(p: Publisher, response: Response<Json>): (r: Result<Publisher, Exception>)
    ensures r.Success? <==> p.task.Pending?
    ensures r.Success? ==> r.value == Publisher(p.kind, Completed(response))
  {
    if p.task.Pending? then Success(p.(task := Completed(response)))
    else Failure(InvalidOperation(AlreadyCompletedMessage))
  }

  /** `tcs.SetException`: faults a pending task; a completed task throws. */
  function SetException(p: Publisher, error: Exception): (r: Result<Publisher, Exception>)
    ensures r.Success? <==> p.task.Pending?
    ensures r.Success? ==> r.value == Publisher(p.kind, Faulted(error))
  {
    if p.task.Pending? then Success(p.(task := Faulted(error)))
    else Failure(InvalidOperation(AlreadyCompletedMessage))
  }

  /** `Dispose` of a publisher (`tcs.TrySetException(new OperationCanceledException())`): faults a pending task, leaves a completed one alone. */
  function Cancel(p: Publisher): (q: Publisher)
    ensures q.kind == p.kind
    ensures p.task.Pending? ==> q.task == Faulted(OperationCanceled)
    ensures !p.task.Pending? ==> q == p
  {
    if p.task.Pending? then p.(task := Faulted(OperationCanceled)) else p
  }

  /**
   * `publisher.Publish(frame)`. The untyped publisher completes its task with the
   * error response for an error frame and otherwise with a plain response carrying
   * the frame's id. The typed publisher faults its task with a MessagingException
   * holding the error response for an error frame, and otherwise completes it with
   * the frame converted to its response type; a frame that does not convert
   * throws out of `Publish` and leaves the task pending.
   */
  function Publish(p: Publisher, frame: JsonObject): (r: Result<Publisher, Exception>)
    ensures r.Success? ==> p.task.Pending? && r.value.kind == p.kind && !r.value.task.Pending?
    ensures r.Success? && !IsErrorResponse(frame) ==> r.value.task.Completed?
    ensures r.Success? && IsErrorResponse(frame) && p.kind.Untyped? ==>
      r.value.task.Completed? && r.value.task.response.ErrorResponse?
    ensures r.Success? && IsErrorResponse(frame) && p.kind.StronglyTyped? ==>
      r.value.task.Faulted? && r.value.task.error.MessagingError?
    ensures !IsErrorResponse(frame) && p.kind.Untyped? && p.task.Pending? && ToText(Get(frame, "id")).Success? ==>
      r == Success(Publisher(Untyped, Completed(Plain(Some(ToText(Get(frame, "id")).value)))))
    ensures !IsErrorResponse(frame) && p.kind.Untyped? && ToText(Get(frame, "id")).Failure? ==>
      r == Failure(ToText(Get(frame, "id")).error)
    ensures !IsErrorResponse(frame) && p.kind.StronglyTyped? && p.task.Pending? && p.kind.convert(frame).Success? ==>
      r == Success(Publisher(p.kind, Completed(p.kind.convert(frame).value)))
    ensures !IsErrorResponse(frame) && p.kind.StronglyTyped? && p.kind.convert(frame).Failure? ==>
      r == Failure(p.kind.convert(frame).error)
  {
    if IsErrorResponse(frame) then
      match BuildErrorResponse(frame)
      case Failure(e) => Failure(e)
      case Success(er) =>
        if p.kind.Untyped? then SetResult(p, er)
        else SetException(p, MessagingError(er.id.GetOr(""), er.error.code, er.error.message, er.error.data))
    else if p.kind.Untyped? then
      match ToText(Get(frame, "id"))
      case Failure(e) => Failure(e)
      case Success(id) => SetResult(p, Plain(Some(id)))
    else
      match p.kind.convert(frame)
      case Failure(e) => Failure(e)
      case Success(response) => SetResult(p, response)
  }

  /** The pending-table index a frame is correlated with: the text of its "id" member must be a waiting id. */
  function Correlate(awaiting: map<string, nat>, frame: JsonObject): (r: Result<nat, Exception>)
    ensures !Has(frame, "id") ==> r == Failure(NullReference)
    ensures r.Success? <==> Has(frame, "id") && Text(Get(frame, "id").value) in awaiting
    ensures r.Success? ==> r.value == awaiting[Text(Get(frame, "id").value)]
    ensures Has(frame, "id") && Text(Get(frame, "id").value) !in awaiting ==>
      r == Failure(Messaging("No one waiting for response " + Text(Get(frame, "id").value)))
  {
    match ToText(Get(frame, "id"))
    case Failure(e) => Failure(e)
    case Success(id) =>
      if id in awaiting then Success(awaiting[id])
      else Failure(Messaging("No one waiting for response " + id))
  }

  /** Every id in the pending table names a publisher. */
  predicate TableValid(awaiting: map<string, nat>, publishers: seq<Publisher>)
  {
    forall k :: k in awaiting ==> awaiting[k] < |publishers|
  }

  /**
   * `PublishResponse(frame)` on a pending table and its publishers: the outcome and
   * the publishers afterwards. The table itself is never changed by a publication.
   */
  function AfterPublish(awaiting: map<string, nat>, publishers: seq<Publisher>, frame: JsonObject): (r: (Outcome<Exception>, seq<Publisher>))
    requires TableValid(awaiting, publishers)
    ensures |r.1| == |publishers|
    ensures r.0.Fail? ==> r.1 == publishers
  {
    match Correlate(awaiting, frame)
    case Failure(e) => (Fail(e), publishers)
    case Success(i) =>
      match Publish(publishers[i], frame)
      case Failure(e) => (Fail(e), publishers)
      case Success(p) => (Pass, publishers[i := p])
  }

  /** The publishers after `Dispose`: those named by `indices` are cancelled, the others kept. */
  function CancelAt(publishers: seq<Publisher>, indices: set<nat>): (r: seq<Publisher>)
    ensures |r| == |publishers|
  {
    seq(|publishers|, i requires 0 <= i < |publishers| => if i in indices then Cancel(publishers[i]) else publishers[i])
  }

  class MessagingClient {
    /** `awaitingResponse`: request id to the index of its publisher. */
    var awaiting: map<string, nat>
    /** Every publisher created so far, in creation order. */
    var publishers: seq<Publisher>
    /** The requests handed to the transport handler, in order. */
    var sent: seq<Request<Json>>

    ghost predicate Valid()
      reads this
    {
      TableValid(awaiting, publishers)
    }

    constructor ()
      ensures Valid()
      ensures awaiting == map[] && publishers == [] && sent == []
    {
      awaiting := map[];
      publishers := [];
      sent := [];
    }

    /**
     * `PublishResponse(frame)`: finds the publisher waiting for the frame's id and
     * lets it publish the frame; the entry stays in the table afterwards.
     */
    method PublishResponse(frame: JsonObject) returns (outcome: Outcome<Exception>)
      requires Valid()
      modifies this`publishers
      ensures Valid()
      ensures (outcome, publishers) == AfterPublish(awaiting, old(publishers), frame)
    {
      var target := Correlate(awaiting, frame);
      match target {
        case Failure(e) =>
          outcome := Fail(e);
        case Success(i) =>
          var published := Publish(publishers[i], frame);
          match published {
            case Failure(e) =>
              outcome := Fail(e);
            case Success(p) =>
              publishers := publishers[i := p];
              outcome := Pass;
          }
      }
    }

    /**
     * `SendMessageAsync(r)` (kind Untyped) or `SendMessageAsync<T, TResult>(r)`
     * (kind StronglyTyped): registers a new pending publisher under the request's
     * id, then hands the request to the transport handler. `reply` is what the
     * handler does: publish nothing, or publish one response frame synchronously
     * before returning. An id already waiting fails before anything is sent.
     */
    method SendMessage(r: Request<Json>, kind: PublisherKind, reply: Option<JsonObject>) returns (result: Result<nat, Exception>)
      requires Valid()
      modifies this
      ensures Valid()
      ensures r.id in old(awaiting) ==>
        result == Failure(Argument(DuplicateKeyMessage))
        && awaiting == old(awaiting) && publishers == old(publishers) && sent == old(sent)
      ensures r.id !in old(awaiting) ==>
        awaiting == old(awaiting)[r.id := |old(publishers)|] && sent == old(sent) + [r]
      ensures r.id !in old(awaiting) && reply.None? ==>
        publishers == old(publishers) + [Publisher(kind, Pending)] && result == Success(|old(publishers)|)
      ensures r.id !in old(awaiting) && reply.Some? ==>
        var after := AfterPublish(awaiting, old(publishers) + [Publisher(kind, Pending)], reply.value);
        publishers == after.1
        && result == (if after.0.Pass? then Success(|old(publishers)|) else Failure(after.0.error))
    {
      if r.id in awaiting {
        result := Failure(Argument(DuplicateKeyMessage));
        return;
      }
      var index := |publishers|;
      publishers := publishers + [Publisher(kind, Pending)];
      awaiting := awaiting[r.id := index];
      sent := sent + [r];
      if reply.Some? {
        var outcome := PublishResponse(reply.value);
        result := if outcome.Pass? then Success(index) else Failure(outcome.error);
      } else {
        result := Success(index);
      }
    }

    /** `Dispose`: cancels the task of every publisher still in the table and empties the table. */
    method Dispose()
      requires Valid()
      modifies this`awaiting, this`publishers
      ensures Valid()
      ensures awaiting == map[]
      ensures publishers == CancelAt(old(publishers), old(awaiting).Values)
    {
      ghost var cancelled: set<nat> := {};
      while awaiting != map[]
        invariant Valid()
        invariant |publishers| == |old(publishers)|
        invariant forall k :: k in awaiting ==> k in old(awaiting) && awaiting[k] == old(awaiting)[k]
        invariant cancelled <= old(awaiting).Values
        invariant forall k :: k in old(awaiting) && k !in awaiting ==> old(awaiting)[k] in cancelled
        invariant publishers == CancelAt(old(publishers), cancelled)
        decreases awaiting.Keys
      {
        var k :| k in awaiting;
        var i := awaiting[k];
        publishers := publishers[i := Cancel(publishers[i])];
        cancelled := cancelled + {i};
        awaiting := awaiting - {k};
      }
      assert cancelled == old(awaiting).Values;
    }
  }

  /** A success frame published from inside the transport handler completes the request just registered, with the request's id. */
  lemma SynchronousReplyCorrelates(awaiting: map<string, nat>, publishers: seq<Publisher>, r: Request<Json>, frame: JsonObject)
    requires TableValid(awaiting, publishers) && r.id !in awaiting
    requires Get(frame, "id") == Some(JString(r.id)) && !IsErrorResponse(frame)
    ensures TableValid(awaiting[r.id := |publishers|], publishers + [Publisher(Untyped, Pending)])
    ensures AfterPublish(awaiting[r.id := |publishers|], publishers + [Publisher(Untyped, Pending)], frame)
         == (Pass, publishers + [Publisher(Untyped, Completed(Plain(Some(r.id))))])
  {
    var ps := publishers + [Publisher(Untyped, Pending)];
    assert Correlate(awaiting[r.id := |publishers|], frame) == Success(|publishers|);
    assert ps[|publishers| := Publisher(Untyped, Completed(Plain(Some(r.id))))] == publishers + [Publisher(Untyped, Completed(Plain(Some(r.id))))];
  }

  /**
   * The same for a typed send: the task completes with the frame converted to the
   * response type; a frame that does not convert makes the publication throw the
   * conversion's exception, and the new task stays pending.
   */
  lemma SynchronousTypedReplyCorrelates(awaiting: map<string, nat>, publishers: seq<Publisher>, r: Request<Json>, frame: JsonObject,
                                        convert: JsonObject -> Result<Response<Json>, Exception>)
    requires TableValid(awaiting, publishers) && r.id !in awaiting
    requires Get(frame, "id") == Some(JString(r.id)) && !IsErrorResponse(frame)
    ensures TableValid(awaiting[r.id := |publishers|], publishers + [Publisher(StronglyTyped(convert), Pending)])
    ensures convert(frame).Success? ==>
      AfterPublish(awaiting[r.id := |publishers|], publishers + [Publisher(StronglyTyped(convert), Pending)], frame)
         == (Pass, publishers + [Publisher(StronglyTyped(convert), Completed(convert(frame).value))])
    ensures convert(frame).Failure? ==>
      AfterPublish(awaiting[r.id := |publishers|], publishers + [Publisher(StronglyTyped(convert), Pending)], frame)
         == (Fail(convert(frame).error), publishers + [Publisher(StronglyTyped(convert), Pending)])
  {
    var p := Publisher(StronglyTyped(convert), Pending);
    assert Correlate(awaiting[r.id := |publishers|], frame) == Success(|publishers|);
    if convert(frame).Success? {
      assert (publishers + [p])[|publishers| := Publisher(StronglyTyped(convert), Completed(convert(frame).value))]
          == publishers + [Publisher(StronglyTyped(convert), Completed(convert(frame).value))];
    }
  }


  /**
   * An error frame whose error object has an integer code and a string message is
   * read into an error response with that code and message, and with the data's
   * text, or null exactly when the error object has no "data" member.
   */
  lemma ErrorFrameRead(frame: JsonObject, id: string, error: JsonObject, code: int, message: string)
    requires Get(frame, "id") == Some(JString(id)) && Get(frame, "error") == Some(JObject(error))
    requires Get(error, "code") == Some(JNumber(code)) && IsInt32(code)
    requires Get(error, "message") == Some(JString(message))
    ensures BuildErrorResponse(frame) == Success(ErrorResponse(Some(id), ErrorInfo(code, Some(message),
      if Has(error, "data") then Some(Text(Get(error, "data").value)) else None)))
  {
  }

  /**
   * Publishing an error frame: the untyped publisher's task completes with the
   * error response, the typed publisher's task faults with a MessagingException
   * carrying the same id, code, message and data.
   */
  lemma ErrorFramePublished(p: Publisher, frame: JsonObject, er: Response<Json>)
    requires p.task.Pending? && IsErrorResponse(frame) && BuildErrorResponse(frame) == Success(er)
    ensures p.kind.Untyped? ==> Publish(p, frame) == Success(Publisher(Untyped, Completed(er)))
    ensures p.kind.StronglyTyped? ==>
      Publish(p, frame) == Success(Publisher(p.kind, Faulted(MessagingError(er.id.value, er.error.code, er.error.message, er.error.data))))
  {
  }

  /**
   * A publication touches only the publisher its id is correlated with, and leaves
   * that id waiting: publishing a second frame for the same id throws, because the
   * publisher's task has already completed.
   */
  lemma OnlyCorrelatedPublisherChanges(awaiting: map<string, nat>, publishers: seq<Publisher>, frame: JsonObject)
    requires TableValid(awaiting, publishers)
    ensures var r := AfterPublish(awaiting, publishers, frame);
      forall j :: 0 <= j < |publishers| && r.1[j] != publishers[j] ==>
        Has(frame, "id") && Text(Get(frame, "id").value) in awaiting && j == awaiting[Text(Get(frame, "id").value)]
    ensures var r := AfterPublish(awaiting, publishers, frame);
      r.0.Pass? ==> AfterPublish(awaiting, r.1, frame).0 == Fail(InvalidOperation(AlreadyCompletedMessage))
  {
    var r := AfterPublish(awaiting, publishers, frame);
    if r.0.Pass? {
      var i := Correlate(awaiting, frame).value;
      assert !r.1[i].task.Pending?;
      assert r.1[i].kind == publishers[i].kind;
    }
  }

  /** After `Dispose`, no cancelled publisher is still pending, and a task that had already completed keeps its outcome. */
  lemma DisposeSettlesEveryWaitingTask(publishers: seq<Publisher>, awaiting: map<string, nat>)
    requires TableValid(awaiting, publishers)
    ensures forall k :: k in awaiting ==> !CancelAt(publishers, awaiting.Values)[awaiting[k]].task.Pending?
    ensures forall k :: k in awaiting && publishers[awaiting[k]].task.Pending? ==>
      CancelAt(publishers, awaiting.Values)[awaiting[k]].task == Faulted(OperationCanceled)
    ensures forall i :: 0 <= i < |publishers| && !publishers[i].task.Pending? ==> CancelAt(publishers, awaiting.Values)[i] == publishers[i]
  {
    forall k | k in awaiting
      ensures !CancelAt(publishers, awaiting.Values)[awaiting[k]].task.Pending?
    {
      assert awaiting[k] in awaiting.Values;
    }
  }

  /**
   * An error response that a request handler returns prebuilt crosses the wire
   * with its error info under the keys Code, Message and Data; the client looks for
   * "code" and fails converting the missing token to an integer.
   */
  lemma PrebuiltErrorFrameUnreadable(id: string, e: ErrorInfo)
    ensures IsErrorResponse(FrameAsWritten(ErrorResponse(Some(id), e)))
    ensures BuildErrorResponse(FrameAsWritten(ErrorResponse(Some(id), e))) == Failure(ArgumentNull("value"))
  {
    var r: Response<Json> := ErrorResponse(Some(id), e);
    HeaderLookups(r);
    MemberAfterHeader(Header(r), "error", JObject(ErrorInfoAsWritten(e)));
    ErrorInfoAsWrittenLookups(e);
    var f := FrameAsWritten(r);
    assert ToText(Get(f, "id")) == Success(Text(JString(id)));
    assert IndexOpt(Get(f, "error"), "code") == Success(None);
  }

  /**
   * With the error info under its protocol names the client reads back the id and
   * code exactly, and the message and data as their text (a null message or data
   * is serialised as a JSON null, which reads back as the empty string).
   */
  lemma ErrorFrameRoundTrip(id: string, e: ErrorInfo)
    requires IsInt32(e.code)
    ensures BuildErrorResponse(Frame(ErrorResponse(Some(id), e)))
         == Success(ErrorResponse(Some(id), ErrorInfo(e.code, Some(e.message.GetOr("")), Some(e.data.GetOr("")))))
    ensures e.message.Some? && e.data.Some? ==> BuildErrorResponse(Frame(ErrorResponse(Some(id), e))) == Success(ErrorResponse(Some(id), e))
  {
    ErrorInfoLookups(e);
  }
}
