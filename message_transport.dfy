/**
 * MessageTransport: reads newline-delimited JSON from the peer, classifies each
 * line as a request or a response (or a parse error), and calls the matching
 * subscribers in the order they subscribed; writes outgoing messages as one
 * compact line each. Reading is a chain of reads, each scheduled by the handling
 * of the previous line, and stopped by cancelling the current epoch.
 */
module Transport {
  import opened Wrappers
  import opened Json
  import opened Faults

  /** A subscribed callback: an identity and the exception it throws when called, if any. */
  datatype Subscriber = Subscriber(id: nat, fault: Option<Exception>)

  /** One call of a subscriber, as it happened. */
  datatype Delivery =
    | ToRequest(subscriber: nat, message: JsonObject)
    | ToResponse(subscriber: nat, message: JsonObject)
    | ToError(subscriber: nat, error: string)

  /**
   * How the handling of one line ends: a new read is scheduled, the epoch was
   * cancelled so no read is scheduled (OperationCanceledException), or an exception
   * ended the read chain.
   */
  datatype LineOutcome = Rearmed | Halted | Stopped(error: Exception)

  /** A message is a response when it has a "result" or an "error" member. */
  predicate IsResponseMessage(m: JsonObject)
  {
    Has(m, "result") || Has(m, "error")
  }

  /** The call of one request or response subscriber with a message. */
  function Call(s: Subscriber, m: JsonObject, response: bool): Delivery
  {
    if response then ToResponse(s.id, m) else ToRequest(s.id, m)
  }

  /**
   * A `foreach` over request or response subscribers: each is called in order
   * until one throws; that exception leaves the loop. The result is the calls made
   * and the exception, if one was thrown.
   */
  function Fanout(subs: seq<Subscriber>, m: JsonObject, response: bool): (r: (seq<Delivery>, Option<Exception>))
    ensures |r.0| <= |subs|
    ensures forall k :: 0 <= k < |r.0| ==> r.0[k] == Call(subs[k], m, response)
    ensures r.1.None? <==> forall k :: 0 <= k < |subs| ==> subs[k].fault.None?
    ensures r.1.None? ==> |r.0| == |subs|
    ensures r.1.Some? ==> 0 < |r.0| && r.1 == subs[|r.0| - 1].fault
    ensures forall k :: 0 <= k < |r.0| - 1 ==> subs[k].fault.None?
  {
    if |subs| == 0 then ([], None)
    else
      var before := Fanout(subs[..|subs| - 1], m, response);
      if before.1.Some? then before
      else (before.0 + [Call(subs[|subs| - 1], m, response)], subs[|subs| - 1].fault)
  }

  /** The `foreach` over error subscribers: every one is called, and what a callback throws is swallowed. */
  function ErrorFanout(subs: seq<Subscriber>, error: string): (r: seq<Delivery>)
    ensures |r| == |subs|
    ensures forall k :: 0 <= k < |r| ==> r[k] == ToError(subs[k].id, error)
  {
    if |subs| == 0 then [] else ErrorFanout(subs[..|subs| - 1], error) + [ToError(subs[|subs| - 1].id, error)]
  }

  /** Once a subscriber in a prefix has thrown, the later subscribers change nothing. */
  lemma {:induction false} FanoutStopsAtThrow(subs: seq<Subscriber>, i: nat, m: JsonObject, response: bool)
    requires i <= |subs| && Fanout(subs[..i], m, response).1.Some?
    ensures Fanout(subs, m, response) == Fanout(subs[..i], m, response)
    decreases |subs| - i
  {
    if i < |subs| {
      var init := subs[..|subs| - 1];
      assert init[..i] == subs[..i];
      FanoutStopsAtThrow(init, i, m, response);
      assert Fanout(subs, m, response) == Fanout(init, m, response);
    } else {
      assert subs[..i] == subs;
    }
  }

  /** The handling of one read line: the subscriber calls made and how the handling ends. */
  function Route(line: Option<string>, parse: string -> Result<JsonObject, string>,
                 requests: seq<Subscriber>, responses: seq<Subscriber>, errors: seq<Subscriber>,
                 cancelled: bool): (r: (seq<Delivery>, LineOutcome))
    ensures (line.None? || line.value == "") ==> r == ([], if cancelled then Halted else Rearmed)
    ensures r.1.Halted? ==> cancelled
    ensures r.1.Rearmed? ==> !cancelled
    ensures line.Some? && line.value != "" && parse(line.value).Failure? ==>
      r.1 == Stopped(NullReference) && |r.0| == |errors| && forall d :: d in r.0 ==> d == ToError(d.subscriber, parse(line.value).error)
    ensures line.Some? && line.value != "" && parse(line.value).Success? ==> forall d :: d in r.0 ==> !d.ToError?
  {
    var next := if cancelled then Halted else Rearmed;
    if line.None? || line.value == "" then ([], next)
    else
      match parse(line.value)
      case Failure(message) =>
        // the failed parse leaves the message null; classifying it dereferences null
        (ErrorFanout(errors, message), Stopped(NullReference))
      case Success(m) =>
        var called := if IsResponseMessage(m) then Fanout(responses, m, true) else Fanout(requests, m, false);
        if called.1.Some? then (called.0, Stopped(called.1.value)) else (called.0, next)
  }

  /**
   * A parsed response (a "result" or "error" member) reaches response subscribers
   * only, in subscription order, all of them unless one throws; a parsed request
   * reaches request subscribers only, in the same way.
   */
  lemma RouteByKind(line: string, parse: string -> Result<JsonObject, string>,
                    requests: seq<Subscriber>, responses: seq<Subscriber>, errors: seq<Subscriber>,
                    cancelled: bool, m: JsonObject)
    requires line != "" && parse(line) == Success(m)
    ensures var r := Route(Some(line), parse, requests, responses, errors, cancelled);
      (IsResponseMessage(m) ==> forall d :: d in r.0 ==> d.ToResponse? && d.message == m)
      && (!IsResponseMessage(m) ==> forall d :: d in r.0 ==> d.ToRequest? && d.message == m)
    ensures var r := Route(Some(line), parse, requests, responses, errors, cancelled);
      IsResponseMessage(m) && (forall k :: 0 <= k < |responses| ==> responses[k].fault.None?) ==>
        |r.0| == |responses| && (forall k :: 0 <= k < |responses| ==> r.0[k] == ToResponse(responses[k].id, m))
    ensures var r := Route(Some(line), parse, requests, responses, errors, cancelled);
      !IsResponseMessage(m) && (forall k :: 0 <= k < |requests| ==> requests[k].fault.None?) ==>
        |r.0| == |requests| && (forall k :: 0 <= k < |requests| ==> r.0[k] == ToRequest(requests[k].id, m))
  {
    var r := Route(Some(line), parse, requests, responses, errors, cancelled);
    var subs := if IsResponseMessage(m) then responses else requests;
    assert r.0 == Fanout(subs, m, IsResponseMessage(m)).0;
    forall d | d in r.0
      ensures (if IsResponseMessage(m) then d.ToResponse? else d.ToRequest?) && d.message == m
    {
      var k :| 0 <= k < |r.0| && r.0[k] == d;
    }
  }

  /** A null or empty line calls no subscriber, and only the epoch decides whether reading goes on. */
  lemma EmptyLineDeliversNothing(line: Option<string>, parse: string -> Result<JsonObject, string>,
                                 requests: seq<Subscriber>, responses: seq<Subscriber>, errors: seq<Subscriber>,
                                 cancelled: bool)
    requires line.None? || line == Some("")
    ensures Route(line, parse, requests, responses, errors, cancelled) == ([], if cancelled then Halted else Rearmed)
  {
  }

  /**
   * A line that does not parse reaches every error subscriber, in order, and no
   * request or response subscriber; the read chain then ends on the null message.
   */
  lemma MalformedLineReachesErrorSubscribers(line: string, parse: string -> Result<JsonObject, string>,
                                             requests: seq<Subscriber>, responses: seq<Subscriber>, errors: seq<Subscriber>,
                                             cancelled: bool, message: string)
    requires line != "" && parse(line) == Failure(message)
    ensures var r := Route(Some(line), parse, requests, responses, errors, cancelled);
      r.1 == Stopped(NullReference)
      && |r.0| == |errors| && (forall k :: 0 <= k < |errors| ==> r.0[k] == ToError(errors[k].id, message))
  {
  }

  /**
   * The epoch check comes after delivery: a cancelled epoch never schedules another
   * read, and an uncancelled one schedules it whenever no exception ended the handling.
   */
  lemma EpochDecidesRearm(line: Option<string>, parse: string -> Result<JsonObject, string>,
                          requests: seq<Subscriber>, responses: seq<Subscriber>, errors: seq<Subscriber>,
                          cancelled: bool)
    ensures var r := Route(line, parse, requests, responses, errors, cancelled);
      (cancelled ==> r.1 != Rearmed) && (!cancelled ==> r.1 != Halted)
      && (r.1.Stopped? <==>
            (line.Some? && line.value != "" &&
             (parse(line.value).Failure? || Fanout(if IsResponseMessage(parse(line.value).value) then responses else requests,
                                                  parse(line.value).value, IsResponseMessage(parse(line.value).value)).1.Some?)))
  {
  }

  /** An object with one string property, both of lower-case letters, is written as {"name":"value"}. */
  lemma CompactSingleProperty(name: string, value: string)
    requires forall i :: 0 <= i < |name| ==> 'a' <= name[i] <= 'z'
    requires forall i :: 0 <= i < |value| ==> 'a' <= value[i] <= 'z'
    ensures Compact(JObject([Property(name, JString(value))])) == "{\"" + name + "\":\"" + value + "\"}"
  {
    var props := [Property(name, JString(value))];
    calc {
      Compact(JObject(props));
      "{" + CompactProps(props) + "}";
      { assert CompactProps(props) == Quote(name) + ":" + Compact(JString(value)); }
      "{" + (Quote(name) + ":" + Quote(value)) + "}";
      { LettersUnescaped(name);
        LettersUnescaped(value); }
      "{" + ("\"" + name + "\"" + ":" + ("\"" + value + "\"")) + "}";
    }
  }

  /** Lower-case letters are written as they are. */
  lemma {:induction false} LettersUnescaped(s: string)
    requires forall i :: 0 <= i < |s| ==> 'a' <= s[i] <= 'z'
    ensures Escape(s) == s
  {
    if |s| > 0 {
      LettersUnescaped(s[1..]);
      assert [s[0]] + s[1..] == s;
    }
  }

  class MessageTransport {
    /** `JObject.Parse`: a line's object, or the message of the exception it throws. */
    const parse: string -> Result<JsonObject, string>
    var requestSubscribers: seq<Subscriber>
    var responseSubscribers: seq<Subscriber>
    var errorSubscribers: seq<Subscriber>
    /** The number of cancellation epochs installed so far (one per `ReadAsync`). */
    var generation: nat
    /** Whether the current epoch's token has been cancelled. */
    var cancelled: bool
    /** Reads issued whose line has not been handled yet. */
    var pendingReads: nat
    /** Every subscriber call so far, in order. */
    var delivered: seq<Delivery>
    /** Every line written to the peer, in order. */
    var written: seq<string>

    /** Construction starts reading: one read is pending under a fresh epoch. */
    constructor (parse: string -> Result<JsonObject, string>)
      ensures this.parse == parse
      ensures requestSubscribers == [] && responseSubscribers == [] && errorSubscribers == []
      ensures generation == 1 && !cancelled && pendingReads == 1
      ensures delivered == [] && written == []
    {
      this.parse := parse;
      requestSubscribers := [];
      responseSubscribers := [];
      errorSubscribers := [];
      delivered := [];
      written := [];
      generation := 1;
      cancelled := false;
      pendingReads := 1;
    }

    /** `ReadAsync`: cancels the current epoch, installs a fresh one, and issues a read. */
    method ReadAsync()
      modifies this`generation, this`cancelled, this`pendingReads
      ensures generation == old(generation) + 1 && !cancelled
      ensures pendingReads == old(pendingReads) + 1
    {
      generation := generation + 1;
      cancelled := false;
      pendingReads := pendingReads + 1;
    }

    /** `Start`: begins a read chain under a fresh epoch. */
    method Start()
      modifies this`generation, this`cancelled, this`pendingReads
      ensures generation == old(generation) + 1 && !cancelled
      ensures pendingReads == old(pendingReads) + 1
    {
      ReadAsync();
    }

    /** `Stop`: cancels the current epoch; a read already issued still completes. */
    method Stop()
      modifies this`cancelled
      ensures cancelled
    {
      cancelled := true;
    }

    /** Calls request or response subscribers in order until one throws. */
    method InvokeCallbacks(subs: seq<Subscriber>, m: JsonObject, response: bool) returns (fault: Option<Exception>)
      modifies this`delivered
      ensures delivered == old(delivered) + Fanout(subs, m, response).0
      ensures fault == Fanout(subs, m, response).1
    {
      var i := 0;
      fault := None;
      while i < |subs| && fault.None?
        invariant 0 <= i <= |subs|
        invariant delivered == old(delivered) + Fanout(subs[..i], m, response).0
        invariant fault == Fanout(subs[..i], m, response).1
      {
        assert subs[..i + 1][..i] == subs[..i];
        delivered := delivered + [Call(subs[i], m, response)];
        fault := subs[i].fault;
        i := i + 1;
      }
      if fault.Some? {
        FanoutStopsAtThrow(subs, i, m, response);
      } else {
        assert subs[..i] == subs;
      }
    }

    /** `InvokeErrors`: calls every error subscriber in order, swallowing what each throws. */
    method InvokeErrors(error: string)
      modifies this`delivered
      ensures delivered == old(delivered) + ErrorFanout(errorSubscribers, error)
    {
      var i := 0;
      while i < |errorSubscribers|
        invariant 0 <= i <= |errorSubscribers|
        invariant delivered == old(delivered) + ErrorFanout(errorSubscribers[..i], error)
      {
        assert errorSubscribers[..i + 1][..i] == errorSubscribers[..i];
        delivered := delivered + [ToError(errorSubscribers[i].id, error)];
        i := i + 1;
      }
      assert errorSubscribers[..i] == errorSubscribers;
    }

    /**
     * `HandleLine`: the completion of one read. A non-empty line is parsed and
     * delivered; then a cancelled epoch ends the chain, and otherwise the next read
     * is issued under a fresh epoch.
     */
    method HandleLine(line: Option<string>) returns (outcome: LineOutcome)
      requires pendingReads > 0
      modifies this`delivered, this`generation, this`cancelled, this`pendingReads
      ensures var r := Route(line, parse, requestSubscribers, responseSubscribers, errorSubscribers, old(cancelled));
        delivered == old(delivered) + r.0 && outcome == r.1
      ensures outcome == Rearmed ==>
        generation == old(generation) + 1 && !cancelled && pendingReads == old(pendingReads)
      ensures outcome != Rearmed ==>
        generation == old(generation) && cancelled == old(cancelled) && pendingReads == old(pendingReads) - 1
    {
      pendingReads := pendingReads - 1;
      if line.Some? && line.value != "" {
        var parsed := parse(line.value);
        match parsed {
          case Failure(message) =>
            InvokeErrors(message);
            return Stopped(NullReference);
          case Success(m) =>
            var fault;
            if IsResponseMessage(m) {
              fault := InvokeCallbacks(responseSubscribers, m, true);
            } else {
              fault := InvokeCallbacks(requestSubscribers, m, false);
            }
            if fault.Some? {
              return Stopped(fault.value);
            }
        }
      }
      if cancelled {
        return Halted;
      }
      ReadAsync();
      outcome := Rearmed;
    }

    /** `PublishAsync`: writes the message's compact JSON text as one line. */
    method PublishAsync(message: JsonObject)
      modifies this`written
      ensures written == old(written) + [Compact(JObject(message))]
      ensures OneLine(written[|written| - 1])
    {
      CompactOneLine(JObject(message));
      written := written + [Compact(JObject(message))];
    }

    method SubscribeRequest(s: Subscriber)
      modifies this`requestSubscribers
      ensures requestSubscribers == old(requestSubscribers) + [s]
    {
      requestSubscribers := requestSubscribers + [s];
    }

    method SubscribeResponse(s: Subscriber)
      modifies this`responseSubscribers
      ensures responseSubscribers == old(responseSubscribers) + [s]
    {
      responseSubscribers := responseSubscribers + [s];
    }

    method SubscribeError(s: Subscriber)
      modifies this`errorSubscribers
      ensures errorSubscribers == old(errorSubscribers) + [s]
    {
      errorSubscribers := errorSubscribers + [s];
    }
  }
}
