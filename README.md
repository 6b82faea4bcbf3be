# IronFoundry Warden control plane

This project is a Dafny model of the part of the IronFoundry Warden that sits
between the container supervisor and the per-container host process. The host
is `IronFoundry.Warden.ContainerHost.exe`, and the two sides exchange JSON-RPC 2.0
frames, one compact JSON object per line, over the host's standard streams.

The model has two layers:

- **Messaging.** It covers:
  - the transport, which classifies each line as a request, a response or a malformed line and fans it out to the subscribers;
  - the two method dispatchers, which route case-insensitive method names to handlers and build success or error responses with the reserved codes of section 5.1 of the JSON-RPC 2.0 Specification;
  - the messaging client, which correlates responses with the requests waiting on them;
  - the message classes themselves.
- **Bookkeeping.** It covers:
  - the job-object handle;
  - the resource holder's ordered, partly exception-isolated teardown;
  - the process manager's pid-keyed table and its summed statistics;
  - the container manager's handle-keyed registry;
  - the container stub's Born/Active/Destroyed lifecycle;
  - the two launchers, which start the host lazily, stop it, build its command lines and turn its replies into process ids;
  - the web-application command;
  - the string, path and enumerable helpers;
  - the standard-rights flags.

How the code is mapped:

- A class whose fields the source updates becomes a Dafny `class`, and its methods carry `modifies` clauses. This applies to the transport, the client, the dispatchers, the job object, the resource holder, the process manager, the container manager, the stub and the launchers.
- Pure code becomes datatypes and functions. This applies to the messages, the response builders, the routing of one line, the teardown plan, the argument strings and the helpers.
- Each method is proved against a specification function, and lemmas state what the source promises about that function.

JSON is a small datatype. An object is a sequence of properties, and lookup finds the first property with a name, as `JObject` does. Parsing a line is a parameter that may fail. Exceptions are values of one `Exception` datatype, and a member that can throw returns a `Result` or an `Outcome`. Collaborators that the code only calls become parameters, or they become a log of the calls made on them. This covers the operating system, the process list, the job's processor times, the IP lookup and the janitor process.

## Model

| member | source | states |
|---|---|---|
| Jobs.JobObject.constructor | IronFoundry.Warden/Containers/JobObject.cs:17-20 | A new job object holds a valid handle and has no processes. |
| Jobs.JobObject.Dispose | IronFoundry.Warden/Containers/JobObject.cs:30-35 | The handle is released once and set to null. A second dispose releases nothing. |
| Jobs.JobObject.AssignProcessToJob | IronFoundry.Warden/Containers/JobObject.cs:37-40 | An open job takes the process into its membership. A disposed job has a null handle, which the interop call refuses with ArgumentNullException, and the membership is unchanged. |
| Jobs.JobObject.TerminateProcesses | IronFoundry.Warden/Containers/JobObject.cs:42-46 | A disposed job throws ObjectDisposedException and ends nothing. Otherwise every member process is ended. |
| StandardRights.Value | IronFoundry.Warden/PInvoke/StandardRights.cs:12-26 | Each of the five base rights is a single bit between 0x00010000 and 0x00100000. |
| StandardRights.WithinRightsBits | IronFoundry.Warden/PInvoke/StandardRights.cs:12-26 | Every right is non-zero and uses only the bits 16-20. |
| StandardRights.BaseRightsDistinct | IronFoundry.Warden/PInvoke/StandardRights.cs:14-18 | Two different base rights share no bit. |
| StandardRights.GenericRightsAreReadPermissions | IronFoundry.Warden/PInvoke/StandardRights.cs:20-22 | Read, Write and Execute all equal ReadPermissions. Write differs from WritePermissions. |
| StandardRights.CombinedRights | IronFoundry.Warden/PInvoke/StandardRights.cs:23-25 | Required is 0x000F0000. All is Required with Synchronize added, 0x001F0000, and the two do not overlap. |
| CreateProcessMessage.FromStartInfo | IronFoundry.Warden.Shared/Messaging/CreateProcessMessage.cs:11-15 | The parameters carry the start info's file name and arguments, both non-null. |
| CreateProcessMessage.ToProcessStartInfo | IronFoundry.Warden.Shared/Messaging/CreateProcessMessage.cs:20-29 | The start info has the parameters' file name and arguments, no shell and no window. Every other setting is the default. |
| CreateProcessMessage.ParamsRoundTrip | IronFoundry.Warden.Shared/Messaging/CreateProcessMessage.cs:11-29 | Parameters that go to a start info and back are unchanged when both fields are set. A null field comes back empty. |
| CreateProcessMessage.StartInfoRoundTrip | IronFoundry.Warden.Shared/Messaging/CreateProcessMessage.cs:11-29 | A start info that goes to parameters and back keeps its file name and arguments. |
| CreateProcessMessage.NewRequest | IronFoundry.Warden.Shared/Messaging/CreateProcessMessage.cs:34-37 | The request has method "CreateProcess" and no parameters. |
| CreateProcessMessage.RequestFor | IronFoundry.Warden.Shared/Messaging/CreateProcessMessage.cs:39-43 | The request has method "CreateProcess" and parameters holding the start info's file name and arguments. |
| CreateProcessMessage.ResultToken | IronFoundry.Warden.Shared/Messaging/CreateProcessMessage.cs:46-49 | The serialised result is an object whose "Id" member is the process id. |
| CreateProcessMessage.NewResponse | IronFoundry.Warden.Shared/Messaging/CreateProcessMessage.cs:57-59 | The response is a typed response with the given id and result, and version "2.0". |
| JsonRpc.Response.JsonRpc | IronFoundry.Warden.Shared/Messaging/JsonRpcResponse.cs:16 | Every response has "jsonrpc" equal to "2.0". |
| JsonRpc.NewErrorResponse | IronFoundry.Warden.Shared/Messaging/JsonRpcResponse.cs:38-46 | A new error response has the given id and a fresh error info with code 0, no message and no data. |
| JsonRpc.StringToken | IronFoundry.Warden.Shared/Messaging/JsonRpcResponse.cs:31-36 | A null string serialises as JSON null, and any other string as that string. |
| JsonRpc.ErrorInfoLookups | IronFoundry.Warden.Shared/Messaging/JsonRpcResponse.cs:31-36 | Under the protocol's member names, code, message and data are each found with their values. |
| JsonRpc.ErrorInfoAsWrittenLookups | IronFoundry.Warden.Shared/Messaging/JsonRpcResponse.cs:31-36 | Under the capitalised property names the class declares, none of "code", "message" or "data" is found. |
| JsonRpc.Frame | IronFoundry.Warden.Shared/Messaging/JsonRpcResponse.cs:11-46 | The frame of a response has version "2.0" and the response's id. It has a "result" member exactly for a typed response and an "error" member exactly for an error response, each holding that response's value. |
| JsonRpc.FramesAgreeWithoutError | IronFoundry.Warden.Shared/Messaging/JsonRpcResponse.cs:11-46 | A response without error info is serialised the same under the declared and the protocol member names. |
| JsonRpc.HeaderLookups | IronFoundry.Warden.Shared/Messaging/JsonRpcResponse.cs:11-17 | Every frame starts with the version and the id, and the header holds neither a result nor an error. |
| Transport.MessageTransport.constructor | IronFoundry.Warden.Shared/Messaging/MessageTransport.cs:24-30 | The subscriber lists start empty, and construction starts reading: one read is pending under a fresh epoch. |
| Transport.MessageTransport.HandleLine | IronFoundry.Warden.Shared/Messaging/MessageTransport.cs:32-41 | The deliveries and the outcome are those of `Route`. Only a rearmed read installs a new epoch, and any other outcome ends the read. |
| Transport.Route | IronFoundry.Warden.Shared/Messaging/MessageTransport.cs:43-59 | An empty or null line delivers nothing, and reading goes on exactly when the epoch is live. A line that fails to parse reaches each error subscriber once with the parser's message and stops the loop with a NullReferenceException. A parsed line reaches no error subscriber. |
| Transport.IsResponseMessage | IronFoundry.Warden.Shared/Messaging/MessageTransport.cs:61-64 | A message is a response exactly when it has a "result" or an "error" member; `RouteByKind` states where it goes. |
| Transport.RouteByKind | IronFoundry.Warden.Shared/Messaging/MessageTransport.cs:55-64 | A parsed message with "result" or "error" reaches only response subscribers, and any other message only request subscribers. When none throws, every subscriber gets the message in registration order. |
| Transport.EmptyLineDeliversNothing | IronFoundry.Warden.Shared/Messaging/MessageTransport.cs:34-40 | A null or empty line calls no subscriber. Only the epoch decides whether reading goes on. |
| Transport.MalformedLineReachesErrorSubscribers | IronFoundry.Warden.Shared/Messaging/MessageTransport.cs:43-59 | A line that fails to parse reaches every error subscriber with the parser's message. It reaches no request or response subscriber, and the read loop ends with a NullReferenceException. |
| Transport.EpochDecidesRearm | IronFoundry.Warden.Shared/Messaging/MessageTransport.cs:32-41 | A cancelled epoch never schedules another read, and a live one never halts quietly. The loop stops on an exception exactly when the line was malformed or a subscriber threw. |
| Transport.Fanout | IronFoundry.Warden.Shared/Messaging/MessageTransport.cs:66-86 | Request or response subscribers are called in order until one throws. The exception is that subscriber's, and every earlier subscriber returned normally. |
| Transport.FanoutStopsAtThrow | IronFoundry.Warden.Shared/Messaging/MessageTransport.cs:66-86 | Once a subscriber has thrown, the subscribers after it make no difference. |
| Transport.MessageTransport.InvokeCallbacks | IronFoundry.Warden.Shared/Messaging/MessageTransport.cs:66-86 | The loop delivers exactly the calls of `Fanout` and returns its exception. |
| Transport.ErrorFanout | IronFoundry.Warden.Shared/Messaging/MessageTransport.cs:88-103 | Every error subscriber is called once, in order, with the error text, whatever the others throw. |
| Transport.MessageTransport.InvokeErrors | IronFoundry.Warden.Shared/Messaging/MessageTransport.cs:88-103 | The loop delivers exactly the calls of `ErrorFanout`. |
| Transport.MessageTransport.PublishAsync | IronFoundry.Warden.Shared/Messaging/MessageTransport.cs:105-109 | Exactly the compact JSON text of the message is written, and it is a single line. |
| Json.CompactOneLine | IronFoundry.Warden.Shared/Messaging/MessageTransport.cs:105-109 | The compact text of any JSON value contains no line break. |
| Transport.CompactSingleProperty | IronFoundry.Warden.Shared/Messaging/MessageTransport.cs:105-109 | An object with one lower-case string property is written as `{"name":"value"}`. |
| Transport.MessageTransport.ReadAsync | IronFoundry.Warden.Shared/Messaging/MessageTransport.cs:111-119 | The previous epoch is replaced by a fresh, uncancelled one and a read is issued. |
| Transport.MessageTransport.Start | IronFoundry.Warden.Shared/Messaging/MessageTransport.cs:121-124 | A read chain begins under a fresh epoch, so delivery resumes after a stop. |
| Transport.MessageTransport.Stop | IronFoundry.Warden.Shared/Messaging/MessageTransport.cs:126-130 | The current epoch is cancelled. A read already issued still completes. |
| Transport.MessageTransport.SubscribeRequest | IronFoundry.Warden.Shared/Messaging/MessageTransport.cs:132-138 | The subscriber is appended to the request subscribers. |
| Transport.MessageTransport.SubscribeResponse | IronFoundry.Warden.Shared/Messaging/MessageTransport.cs:140-146 | The subscriber is appended to the response subscribers. |
| Transport.MessageTransport.SubscribeError | IronFoundry.Warden.Shared/Messaging/MessageTransport.cs:148-154 | The subscriber is appended to the error subscribers. |
| Messaging.MessagingClient.constructor | IronFoundry.Warden.Shared/Messaging/MessagingClient.cs:17-20 | The pending table starts empty. |
| Messaging.MessagingClient.SendMessage | IronFoundry.Warden.Shared/Messaging/MessagingClient.cs:50-66 | An id already pending throws ArgumentException before the transport handler is called. Otherwise the id is registered first and the request is handed over. A reply published from inside the handler is correlated with the new entry. |
| Messaging.SynchronousReplyCorrelates | IronFoundry.Warden.Shared/Messaging/MessagingClient.cs:50-56 | A success frame published from inside the handler completes the untyped task with a response carrying the request's id. |
| Messaging.SynchronousTypedReplyCorrelates | IronFoundry.Warden.Shared/Messaging/MessagingClient.cs:58-66 | A success frame published from inside the handler reaches the typed task. When `ToObject<TResponse>()` converts it, the task completes with the converted response. When the conversion throws, the publish fails with that exception and the task stays pending. |
| Messaging.IsErrorResponse | IronFoundry.Warden.Shared/Messaging/MessagingClient.cs:72-75 | A frame is an error response exactly when it has an "error" member; `AfterPublish` and `ErrorFramePublished` state what follows from it. |
| Messaging.Publish | IronFoundry.Warden.Shared/Messaging/MessagingClient.cs:96-107 | Only a pending task is settled, and its kind is kept. A success frame completes an untyped task with a plain response that carries only the text of the frame's id; the rest of the frame is dropped, and an id that has no text throws that exception. A typed task completes with the converted response, or the publish fails with the conversion's exception. An error frame completes an untyped task with an error response and faults a typed one with a MessagingException. |
| Messaging.Correlate | IronFoundry.Warden.Shared/Messaging/MessagingClient.cs:36-48 | A frame is correlated exactly when the text of its id is pending, and then with that entry. An unknown id throws MessagingException "No one waiting for response <id>", and a frame without an id throws NullReferenceException. |
| Messaging.AfterPublish | IronFoundry.Warden.Shared/Messaging/MessagingClient.cs:36-48 | Publishing keeps the number of publishers, and a failed publish changes none of them. |
| Messaging.MessagingClient.PublishResponse | IronFoundry.Warden.Shared/Messaging/MessagingClient.cs:36-48 | The new publishers and the outcome are those of `AfterPublish`, and the pending table is not changed. The entry is looked up, never removed. |
| Messaging.OnlyCorrelatedPublisherChanges | IronFoundry.Warden.Shared/Messaging/MessagingClient.cs:36-48 | A publish changes at most the publisher of the frame's id. Publishing the same frame again then throws, because the entry stays in the table. |
| Messaging.BuildErrorResponse | IronFoundry.Warden.Shared/Messaging/MessagingClient.cs:77-85 | A frame without an id throws NullReferenceException. A built error response has an id, a message and a 32-bit code. |
| Messaging.ErrorFrameRead | IronFoundry.Warden.Shared/Messaging/MessagingClient.cs:77-85 | An error frame is read into an error response with the frame's id, code and message. Its data is the text of the data member, or null when that member is absent. |
| Messaging.ErrorFramePublished | IronFoundry.Warden.Shared/Messaging/MessagingClient.cs:96-107 | An error frame completes an untyped task with the error response. It faults a typed task with a MessagingException carrying the error. |
| Messaging.SetResult | IronFoundry.Warden.Shared/Messaging/MessagingClient.cs:96-107 | A pending task completes with the response, and a task already completed throws. |
| Messaging.SetException | IronFoundry.Warden.Shared/Messaging/MessagingClient.cs:132-143 | A pending task faults with the exception, and a task already completed throws. |
| Messaging.Cancel | IronFoundry.Warden.Shared/Messaging/MessagingClient.cs:117-120 | A pending task faults with OperationCanceledException, and a completed task keeps its outcome. |
| Messaging.CancelAt | IronFoundry.Warden.Shared/Messaging/MessagingClient.cs:22-34 | Cancelling the tasks named by the table keeps the number of publishers. |
| Messaging.MessagingClient.Dispose | IronFoundry.Warden.Shared/Messaging/MessagingClient.cs:22-34 | Every publisher still in the table is cancelled, and the table ends empty. |
| Messaging.DisposeSettlesEveryWaitingTask | IronFoundry.Warden.Shared/Messaging/MessagingClient.cs:22-34 | After dispose no waiting task is still pending, and each one that was pending is cancelled. A task already completed keeps its outcome. |
| Messaging.PrebuiltErrorFrameUnreadable | IronFoundry.Warden.Shared/Messaging/MessagingClient.cs:77-85 | A prebuilt error response, serialised with the class's own property names, counts as an error frame. Reading it throws ArgumentNullException. |
| Messaging.ErrorFrameRoundTrip | IronFoundry.Warden.Shared/Messaging/MessagingClient.cs:77-85 | An error response serialised under the protocol's member names is read back with the same id and code, and the same message and data when they are set. |
| HostDispatch.MessageDispatcher.constructor | IronFoundry.Warden.ContainerHost/MessageDispatcher.cs:14 | The method table starts empty. |
| HostDispatch.Fold | IronFoundry.Warden.ContainerHost/MessageDispatcher.cs:14 | The table key of a name is its letters in upper case, one character for each character. |
| HostDispatch.FoldIdentifiesCaseVariants | IronFoundry.Warden.ContainerHost/MessageDispatcher.cs:14 | Two names share a table key exactly when they differ at most in the case of letters. |
| HostDispatch.MessageDispatcher.RegisterMethod | IronFoundry.Warden.ContainerHost/MessageDispatcher.cs:70-73 | A null name throws ArgumentNullException and a name already registered in any casing throws ArgumentException, both leaving the table unchanged. Otherwise the handler is stored under the folded name. |
| HostDispatch.MessageDispatcher.RegisterTypedMethod | IronFoundry.Warden.ContainerHost/MessageDispatcher.cs:75-82 | Registration succeeds exactly for a new non-null name. It stores a handler that converts the request and then calls the callback. |
| HostDispatch.MessageDispatcher.Dispatch | IronFoundry.Warden.ContainerHost/MessageDispatcher.cs:16-46 | Dispatch answers exactly when the request has a string method name. An unknown name gets the -32601 error with the request's id; `LookupIgnoresCase` and `HandlerOutcomeResponse` state the rest. |
| HostDispatch.DispatchWith | IronFoundry.Warden.ContainerHost/MessageDispatcher.cs:16-46 | The same answer over a given method table: a response exactly when the method is named, -32601 with the id for an unknown name. |
| HostDispatch.MethodNamed | IronFoundry.Warden.ContainerHost/MessageDispatcher.cs:18 | The request has a "method" member whose cast to string is not null. |
| HostDispatch.Respond | IronFoundry.Warden.ContainerHost/MessageDispatcher.cs:23-35 | A returned value becomes a response with a result and the request's id. A thrown exception, and a null value, become a -32603 error with the request's id; a thrown exception's message is kept. |
| HostDispatch.UnknownMethodNotFound | IronFoundry.Warden.ContainerHost/MessageDispatcher.cs:16-43 | An unregistered method gets the -32601 "The method '<name>' does not exist." error for the request. |
| HostDispatch.LookupIgnoresCase | IronFoundry.Warden.ContainerHost/MessageDispatcher.cs:14-21 | A method registered in one casing is found under any other casing, and its handler runs on the request. |
| HostDispatch.HandlerOutcomeResponse | IronFoundry.Warden.ContainerHost/MessageDispatcher.cs:16-43 | A thrown exception becomes an internal error. A returned response is serialised by `JObject.FromObject` under the member names its classes declare. A null value makes the serialisation throw ArgumentNullException, which also becomes an internal error. Any other value is wrapped as a success response. |
| HostDispatch.ResponsesEchoId | IronFoundry.Warden.ContainerHost/MessageDispatcher.cs:16-43 | Every response the dispatcher builds itself carries the request's id. |
| HostDispatch.NullMethodNameEscapes | IronFoundry.Warden.ContainerHost/MessageDispatcher.cs:16-21 | A missing or null method name makes the lookup throw ArgumentNullException out of Dispatch. |
| HostDispatch.ErrorObject | IronFoundry.Warden.ContainerHost/MessageDispatcher.cs:45-58 | The error member holds the code, the message and the data. |
| HostDispatch.ResponseObject | IronFoundry.Warden.ContainerHost/MessageDispatcher.cs:45-58 | The response holds version "2.0", the id and the result or error member, and not the other. |
| HostDispatch.ErrorResponse | IronFoundry.Warden.ContainerHost/MessageDispatcher.cs:45-58 | An error response has the id, the code, the message and the data, and no result. A null message becomes "Unknown error". |
| HostDispatch.InternalError | IronFoundry.Warden.ContainerHost/MessageDispatcher.cs:60-63 | Code -32603, the exception's message, its stack trace as data, and the request's id. |
| HostDispatch.MethodNotFoundError | IronFoundry.Warden.ContainerHost/MessageDispatcher.cs:65-68 | Code -32601, a message naming the method, null data, and the request's id. |
| HostDispatch.SuccessResponse | IronFoundry.Warden.ContainerHost/MessageDispatcher.cs:84-91 | Version "2.0", the id and the result, with no error member. |
| SharedDispatch.MessageDispatcher.constructor | IronFoundry.Warden.Shared/Messaging/MessageDispatcher.cs:12 | The method table starts empty. |
| SharedDispatch.Await | IronFoundry.Warden.Shared/Messaging/MessageDispatcher.cs:14-41 | A completed task yields its value. A faulted task, or a handler that throws before returning a task, yields the exception. |
| SharedDispatch.AgreesWithHostDispatcher | IronFoundry.Warden.Shared/Messaging/MessageDispatcher.cs:14-41 | On handlers that complete at once, the asynchronous dispatcher answers every request exactly as the host's dispatcher does. |
| SharedDispatch.FailedHandlerInternalError | IronFoundry.Warden.Shared/Messaging/MessageDispatcher.cs:32-35 | A thrown or faulted handler gives -32603 with the exception's message, its stack trace and the request's id. |
| SharedDispatch.CompletedHandlerResponse | IronFoundry.Warden.Shared/Messaging/MessageDispatcher.cs:21-35 | An awaited value is wrapped as a success response with the request's id. An awaited response is serialised under the member names its classes declare. An awaited null gives a -32603 error with the ArgumentNullException's message, its stack trace and the request's id. |
| SharedDispatch.UnknownAsyncMethodNotFound | IronFoundry.Warden.Shared/Messaging/MessageDispatcher.cs:36-40 | An unregistered method gets the -32601 method-not-found error. |
| SharedDispatch.MessageDispatcher.RegisterMethod | IronFoundry.Warden.Shared/Messaging/MessageDispatcher.cs:68-71 | A null or case-insensitively duplicate name throws and leaves the table unchanged. Otherwise the handler is stored under the folded name. |
| SharedDispatch.MessageDispatcher.RegisterTypedMethod | IronFoundry.Warden.Shared/Messaging/MessageDispatcher.cs:73-80 | Registration succeeds exactly for a new non-null name. It stores the converting handler. |
| SharedDispatch.MessageDispatcher.DispatchAsync | IronFoundry.Warden.Shared/Messaging/MessageDispatcher.cs:14-44 | The awaited answer exists exactly when the request has a string method name; an unknown name gets the -32601 error with the request's id. |
| SharedDispatch.DispatchAsyncWith | IronFoundry.Warden.Shared/Messaging/MessageDispatcher.cs:14-44 | The same answer over a given method table. |
| SharedDispatch.Lift | IronFoundry.Warden.Shared/Messaging/MessageDispatcher.cs:14-44 | A handler that completes at once, awaited, gives what the synchronous handler gives on every request. |
| ProcessTracking.NewProcessManager | IronFoundry.Warden/Utilities/ProcessManager.cs:26-40 | A null container user throws ArgumentNullException. Otherwise the manager starts with an empty table. |
| ProcessTracking.ProcessManager.constructor | IronFoundry.Warden/Utilities/ProcessManager.cs:26-40 | The manager keeps the job and the user and starts with no tracked process. |
| ProcessTracking.ProcessManager.HasProcesses | IronFoundry.Warden/Utilities/ProcessManager.cs:42-45 | It holds exactly when some id is tracked. |
| ProcessTracking.TableNonEmpty | IronFoundry.Warden/Utilities/ProcessManager.cs:44 | A table has a positive count exactly when some id is in it. |
| ProcessTracking.ProcessManager.ContainsProcess | IronFoundry.Warden/Utilities/ProcessManager.cs:47-50 | It holds exactly when the id is tracked. |
| ProcessTracking.ProcessManager.CreateProcess | IronFoundry.Warden/Utilities/ProcessManager.cs:65-76 | A launched process is tracked under its id and its exit is watched. A launch failure propagates, and an id already tracked throws InvalidOperationException, both with the table unchanged. |
| ProcessTracking.MatchingUserProcesses | IronFoundry.Warden/Utilities/ProcessManager.cs:115-119 | The result is exactly the running processes of the container's user. |
| ProcessTracking.ProcessManager.RestoreProcesses | IronFoundry.Warden/Utilities/ProcessManager.cs:84-99 | The table becomes the old table with each matching process added in turn if its id is not yet tracked. |
| ProcessTracking.RestoreKeepsEntries | IronFoundry.Warden/Utilities/ProcessManager.cs:86-98 | Restoring never replaces an entry that was already tracked. |
| ProcessTracking.RestoreTracks | IronFoundry.Warden/Utilities/ProcessManager.cs:86-98 | After restoring, exactly the old ids and the restored processes' ids are tracked. |
| ProcessTracking.RestoredEntries | IronFoundry.Warden/Utilities/ProcessManager.cs:86-98 | Every id added by restoring is marked as restored. |
| ProcessTracking.ProcessManager.StopProcesses | IronFoundry.Warden/Utilities/ProcessManager.cs:101-113 | The job is terminated, and the tracked table is not changed. |
| ProcessTracking.ProcessManager.Dispose | IronFoundry.Warden/Utilities/ProcessManager.cs:78-82 | The job is disposed, and its handle is released once. The launcher's disposal is left out. |
| ProcessTracking.ProcessManager.OnProcessExited | IronFoundry.Warden/Utilities/ProcessManager.cs:121-129 | The exit subscription of that process is dropped, and only its id is removed. |
| ProcessTracking.ProcessManager.RemoveProcess | IronFoundry.Warden/Utilities/ProcessManager.cs:131-138 | Only that id is removed. |
| ProcessTracking.GetProcessStats | IronFoundry.Warden/Utilities/ProcessManager.cs:140-169 | The processor time is kernel plus user time, or an OverflowException. The private, paged and working-set totals are the 64-bit-wrapped sums over the job's processes still found. |
| ProcessStatistics.WrapInt64 | IronFoundry.Warden/Utilities/ProcessManager.cs:150-159 | The result is the signed 64-bit value congruent to the input modulo 2^64, and a value already in range is unchanged. |
| ProcessStatistics.WrapInt64Add | IronFoundry.Warden/Utilities/ProcessManager.cs:150-159 | Wrapping the running total at every `+=` gives the same value as wrapping the exact total once. |
| ProcessStatistics.WrapUInt64 | IronFoundry.Warden/Containers/ContainerStub.cs:202-219 | The result is the unsigned 64-bit value congruent to the input, and a value already in range is unchanged. |
| ProcessStatistics.Found | IronFoundry.Warden/Utilities/ProcessManager.cs:145-148 | The processes found are exactly those of the job's ids that are still running. |
| ProcessStatistics.AddTimes | IronFoundry.Warden/Utilities/ProcessManager.cs:163 | Adding two time spans gives their sum when it fits in 64 bits and an OverflowException otherwise. |
| Containers.ContainerManager.constructor | IronFoundry.Warden/Containers/ContainerManager.cs:22-26 | The registry starts empty. |
| Containers.ContainerManager.Handles | IronFoundry.Warden/Containers/ContainerManager.cs:28-31 | The handles are exactly those for which a container is found. |
| Containers.ContainerManager.AddContainer | IronFoundry.Warden/Containers/ContainerManager.cs:33-39 | A new handle is stored. An existing handle throws WardenException and a null handle throws ArgumentNullException, both with the registry unchanged. |
| Containers.AddFailureMessage | IronFoundry.Warden/Containers/ContainerManager.cs:37 | The message of the exception an existing handle raises; `ContainerManager.AddContainer` states when it is raised. |
| Containers.ContainerManager.GetContainer | IronFoundry.Warden/Containers/ContainerManager.cs:41-51 | The stored client is returned, or null when the handle is absent. |
| Containers.ContainerManager.DestroyContainer | IronFoundry.Warden/Containers/ContainerManager.cs:91-107 | A null handle throws before anything changes. Otherwise the handle is removed and the janitor is called once, with the removed client's port or null. |
| Containers.ContainerManager.DestroyContainerOf | IronFoundry.Warden/Containers/ContainerManager.cs:86-89 | Destroying a client does exactly what destroying its handle does. |
| Containers.JanitorCallFor | IronFoundry.Warden/Containers/ContainerManager.cs:98-106 | The janitor gets the handle, the configured base path, the TCP port's text and the delete flag. The port is the removed client's, or null when none was tracked. |
| Containers.TcpPortTextRoundTrip | IronFoundry.Warden/Containers/ContainerManager.cs:106 | The decimal text of a TCP port parses back to that port. |
| JsonAccess.DigitsOfNatText | IronFoundry.Warden/Containers/ContainerManager.cs:106 | The text of a natural number is all digits, and their decimal value is the number. |
| Json.IntText | IronFoundry.Warden/Containers/ContainerManager.cs:106 | An integer's text is its digits, preceded by '-' when the integer is negative. |
| ResourceHolders.ContainerResourceHolder.constructor | IronFoundry.Warden/Containers/ContainerResourceHolder.cs:28-42 | The holder keeps its handle, user, directory, job name and delete flag, and it has no port assigned. |
| ResourceHolders.Teardown | IronFoundry.Warden/Containers/ContainerResourceHolder.cs:51-85 | Terminating the job comes first. The teardown completes unless terminating, disposing or a non-IO directory failure throws, and only those exceptions escape. |
| ResourceHolders.TeardownInOrder | IronFoundry.Warden/Containers/ContainerResourceHolder.cs:51-85 | The steps run in the order terminate, dispose, delete directory, release port, delete user, each at most once. |
| ResourceHolders.TeardownSteps | IronFoundry.Warden/Containers/ContainerResourceHolder.cs:58-84 | A completed teardown deletes the user. The directory is deleted only when the flag is set. The port is released only when one is assigned, and then with that port and the user's name. |
| ResourceHolders.DeletionIOFailureSwallowed | IronFoundry.Warden/Containers/ContainerResourceHolder.cs:56-63 | An IOException from directory deletion is swallowed, and the port release and user deletion still happen. |
| ResourceHolders.ReleaseAndUserFaultsIgnored | IronFoundry.Warden/Containers/ContainerResourceHolder.cs:65-84 | Exceptions from port release or user deletion change neither the steps nor the outcome. |
| ResourceHolders.UncaughtFailureStops | IronFoundry.Warden/Containers/ContainerResourceHolder.cs:51-63 | A failure to terminate or dispose the job, or a non-IO directory failure, ends the teardown at that step with that exception. |
| ResourceHolders.ContainerResourceHolder.Destroy | IronFoundry.Warden/Containers/ContainerResourceHolder.cs:51-85 | The calls made and the outcome are those of `Teardown`. |
| ResourceHolders.CreateForDestroy | IronFoundry.Warden/Containers/ContainerResourceHolder.cs:105-122 | The holder is rebuilt for the handle, with the configured directory and delete flag, and its assigned port is the argument. |
| ResourceHolders.TempDirectoryPath | IronFoundry.Warden/Containers/ContainerResourceHolder.cs:154-157 | The directory's path is the base path combined with the handle, so its file name is the handle. |
| ResourceHolders.TempDirectory.constructor | IronFoundry.Warden/Containers/ContainerResourceHolder.cs:154-157 | The full path is the base path combined with the handle. |
| ResourceHolders.TempDirectory.Delete | IronFoundry.Warden/Containers/ContainerResourceHolder.cs:169-175 | The directory and everything under it is removed when it exists, and nothing changes otherwise. |
| Stubs.ContainerStub.constructor | IronFoundry.Warden/Containers/ContainerStub.cs:28-46 | A new stub is Born and has no user, directory or handle. |
| Stubs.ContainerStub.Initialize | IronFoundry.Warden/Containers/ContainerStub.cs:221-227 | The stub becomes Active with the user, directory and handle. A failure to obtain the user changes nothing. |
| Stubs.ContainerStub.Destroy | IronFoundry.Warden/Containers/ContainerStub.cs:165-168 | The stub becomes Destroyed. |
| Stubs.ContainerStub.ActiveCheck | IronFoundry.Warden/Containers/ContainerStub.cs:128-134 | It passes exactly when the stub is Active, and otherwise throws InvalidOperationException. |
| Stubs.ContainerStub.BindMounts | IronFoundry.Warden/Containers/ContainerStub.cs:74-79 | It throws unless the stub is Active, and otherwise records the mounts. |
| Stubs.ContainerStub.CreateProcess | IronFoundry.Warden/Containers/ContainerStub.cs:81-104 | It throws unless the stub is Active. Otherwise it starts the process from the request's start info, then assigns the process to the job. A disposed job throws ArgumentNullException after the start, so the process stays started but outside the job. |
| Stubs.ContainerStub.GetInfo | IronFoundry.Warden/Containers/ContainerStub.cs:184-200 | It throws unless the stub is Active. The info holds the IP address, the container path, the state "Active", the processor time and the private bytes. |
| Stubs.ContainerStub.ReservePort | IronFoundry.Warden/Containers/ContainerStub.cs:241-244 | It always throws NotImplementedException. |
| Stubs.ContainerStub.Stop | IronFoundry.Warden/Containers/ContainerStub.cs:246-249 | It always throws NotImplementedException. |
| Stubs.ContainerStub.Dispose | IronFoundry.Warden/Containers/ContainerStub.cs:251-254 | The job is disposed. |
| Stubs.BaseStartInfo | IronFoundry.Warden/Containers/ContainerStub.cs:136-152 | All three streams are redirected, with no shell, no window and no profile. The user is the container user when impersonating and the request's user otherwise. |
| Stubs.ToProcessStartInfo | IronFoundry.Warden/Containers/ContainerStub.cs:136-163 | Impersonating without a user throws NullReferenceException. Otherwise the start info is built from the request. |
| Stubs.EnvironmentChoice | IronFoundry.Warden/Containers/ContainerStub.cs:153-160 | A non-empty environment replaces the child's environment exactly, and an empty one leaves the inherited environment. |
| Stubs.ProcessStartInfoFor | IronFoundry.Warden/Containers/ContainerStub.cs:136-163 | The file name, arguments and working directory come from the request, the shell is not used and all three streams are redirected; a non-empty request environment replaces the inherited one, and an empty one keeps it. |
| Stubs.GetCpuStat | IronFoundry.Warden/Containers/ContainerStub.cs:175-182 | Kernel plus user time, or an OverflowException. |
| Stubs.GetMemoryStat | IronFoundry.Warden/Containers/ContainerStub.cs:202-219 | The private bytes are the unsigned 64-bit-wrapped sum over the job's processes still found. |
| Stubs.MemoryStatExact | IronFoundry.Warden/Containers/ContainerStub.cs:202-219 | A sum that fits in 64 bits is reported exactly. |
| Stubs.Kill | IronFoundry.Warden/Containers/ContainerStub.cs:323-327 | An exited process is not killed, and a running one is. |
| Jobs.OsProcess.Kill | IronFoundry.Warden/Containers/ContainerStub.cs:326 | The wrapped process is killed, and only its killed flag may change. |
| HostExecutable.HostPath | IronFoundry.Warden/Containers/ProcessLauncher/ProcessLauncher.cs:16-23 | The host's path in the current directory has the host executable's file name. |
| HostExecutable.HostNameIsPlain | IronFoundry.Warden/Containers/ContainerHostLauncher.cs:31 | The host executable's name is a non-empty plain file name. |
| Launcher.ProcessLauncher.constructor | IronFoundry.Warden/Containers/ProcessLauncher/ProcessLauncher.cs:14-17 | No host is recorded yet, and nothing has been spawned or written. |
| Launcher.ProcessLauncher.HostStartInfo | IronFoundry.Warden/Containers/ProcessLauncher/ProcessLauncher.cs:23-28 | The host is started from its path with all three streams redirected and no shell. |
| Launcher.ProcessLauncher.LaunchProcess | IronFoundry.Warden/Containers/ProcessLauncher/ProcessLauncher.cs:19-38 | The host is spawned and added to the job only when none is recorded, and later launches reuse it. A disposed job throws ArgumentNullException after the host is recorded, and nothing is written. Otherwise the launch writes one request line, reads one response line and returns what the code as written makes of it. |
| Launcher.ProcessLauncher.RequestStartProcess | IronFoundry.Warden/Containers/ProcessLauncher/ProcessLauncher.cs:40-59 | One CreateProcess request line is written. One response line is read and interpreted as the code is written, with the pid cast from the "result" member. |
| Launcher.LaunchResult | IronFoundry.Warden/Containers/ProcessLauncher/ProcessLauncher.cs:50-64 | End of stream throws ArgumentNullException, an unparsable line the reader's exception, and an error member the launcher exception. A launch that succeeds names a process that is running. |
| Launcher.ReadResponse | IronFoundry.Warden/Containers/ProcessLauncher/ProcessLauncher.cs:61-65 | End of stream throws ArgumentNullException. A line is parsed, and a parse failure is a reader exception. |
| Launcher.NextLine | IronFoundry.Warden/Containers/ProcessLauncher/ProcessLauncher.cs:61-65 | The next line of the host's output, or null at end of stream. |
| Launcher.AfterRead | IronFoundry.Warden/Containers/ProcessLauncher/ProcessLauncher.cs:61-65 | Reading consumes exactly the first line. |
| Launcher.LauncherException | IronFoundry.Warden/Containers/ProcessLauncher/ProcessLauncher.cs:50-54 | The exception carries the error's message, its 32-bit code and its data. |
| Launcher.ErrorMemberRaised | IronFoundry.Warden/Containers/ProcessLauncher/ProcessLauncher.cs:50-54 | Any response with an error member raises the launcher exception built from that error. |
| Launcher.LauncherExceptionOf | IronFoundry.Warden/Containers/ProcessLauncher/ProcessLauncher.cs:50-54 | An error object with code, message and data gives an exception with exactly those values. |
| Launcher.HostErrorRaised | IronFoundry.Warden/Containers/ProcessLauncher/ProcessLauncher.cs:50-54 | A handler failure in the host reaches the caller as a launcher exception with its message, code -32603 and its stack trace. |
| Launcher.UnknownMethodRaised | IronFoundry.Warden/Containers/ProcessLauncher/ProcessLauncher.cs:50-54 | An unknown method in the host reaches the caller as a launcher exception with the not-found message and code -32601. |
| Launcher.InterpretResponseAsWritten | IronFoundry.Warden/Containers/ProcessLauncher/ProcessLauncher.cs:50-57 | An error member raises the launcher exception. A success returns a running process whose id is the "result" member read as a 32-bit integer. |
| Launcher.InterpretResponse | IronFoundry.Warden/Containers/ProcessLauncher/ProcessLauncher.cs:50-57 | An error member raises the launcher exception. A success returns a running process whose id is the "Id" member of the result. |
| Launcher.GetProcessById | IronFoundry.Warden/Containers/ProcessLauncher/ProcessLauncher.cs:57 | A running id gives its process, and any other id throws ArgumentException. |
| Launcher.HostReplyRejected | IronFoundry.Warden/Containers/ProcessLauncher/ProcessLauncher.cs:56 | The host's CreateProcess reply makes the code as written throw "Can not convert Object to Int32.". |
| Launcher.LaunchRejectsHostReply | IronFoundry.Warden/Containers/ProcessLauncher/ProcessLauncher.cs:48-57 | A launch that reads the host's CreateProcess reply throws "Can not convert Object to Int32.", whatever process the host started. |
| Launcher.HostReplyAccepted | IronFoundry.Warden/Containers/ProcessLauncher/ProcessLauncher.cs:56-57 | With the corrected reading, the host's reply gives the process with the reported id. |
| HostLaunching.ContainerHostLauncher.constructor | IronFoundry.Warden/Containers/ContainerHostLauncher.cs:29-36 | No host, transport or client is recorded. The host path is the current directory combined with the host executable. |
| HostLaunching.ContainerHostLauncher.HostProcessId | IronFoundry.Warden/Containers/ContainerHostLauncher.cs:38-41 | It is 0 without a host and the host's id otherwise. |
| HostLaunching.ContainerHostLauncher.IsActive | IronFoundry.Warden/Containers/ContainerHostLauncher.cs:43-51 | It holds exactly when a host is recorded and has not exited. |
| HostLaunching.ContainerHostLauncher.LastExitCode | IronFoundry.Warden/Containers/ContainerHostLauncher.cs:58-67 | It is non-null exactly when a recorded host has exited, and then it is the host's exit code. |
| HostLaunching.ContainerHostLauncher.Start | IronFoundry.Warden/Containers/ContainerHostLauncher.cs:69-107 | Start changes nothing while a host is recorded. Otherwise it spawns an active host with the arguments "start --handle <name>", and a fresh transport whose one response subscriber forwards to a fresh client. |
| HostLaunching.StartArgumentsWords | IronFoundry.Warden/Containers/ContainerHostLauncher.cs:73-75 | The host's arguments are exactly the words "start", "--handle" and the job object's name. |
| HostLaunching.StartArgumentsNoName | IronFoundry.Warden/Containers/ContainerHostLauncher.cs:73-75 | Without a job object name the arguments are just "start --handle". |
| HostLaunching.StartArguments | IronFoundry.Warden/Containers/ContainerHostLauncher.cs:73-75 | The host's argument string; `StartArgumentsWords` and `StartArgumentsNoName` state its words. |
| HostLaunching.NewMessaging | IronFoundry.Warden/Containers/ContainerHostLauncher.cs:96-105 | A fresh transport with the forwarding response subscriber and a fresh client with an empty table. |
| HostLaunching.ContainerHostLauncher.ForwardResponse | IronFoundry.Warden/Containers/ContainerHostLauncher.cs:101-105 | Every response frame from the transport is published to the client. |
| HostLaunching.ContainerHostLauncher.OnHostExited | IronFoundry.Warden/Containers/ContainerHostLauncher.cs:88-92 | The messaging objects are disposed, and HostStopped reports the host's exit code, or 0 without a host. |
| HostLaunching.ContainerHostLauncher.Stop | IronFoundry.Warden/Containers/ContainerHostLauncher.cs:109-123 | The host is forgotten, the messaging objects are disposed and the host is disposed. The host is killed only if it had not exited, so a second stop is harmless. |
| HostLaunching.ContainerHostLauncher.DisposeMessageHandling | IronFoundry.Warden/Containers/ContainerHostLauncher.cs:134-147 | The client cancels every waiting request, the transport is released, and both fields are cleared. |
| HostLaunching.ContainerHostLauncher.Dispose | IronFoundry.Warden/Containers/ContainerHostLauncher.cs:53-56 | Dispose stops the launcher and disposes the host. |
| HostLaunching.ContainerHostLauncher.SendMessage | IronFoundry.Warden/Containers/ContainerHostLauncher.cs:149-154 | The request is registered with the client and its compact JSON line is written to the host. A duplicate id throws before anything is written. |
| HostLaunching.ContainerHostLauncher.DestroyContainer | IronFoundry.Warden/Containers/ContainerHostLauncher.cs:156-179 | The janitor is started with the destroy arguments. If it is still running after the wait it is killed and TimeoutException is raised, and the janitor is disposed either way. |
| HostLaunching.DestroyArgumentsWords | IronFoundry.Warden/Containers/ContainerHostLauncher.cs:158-164 | The words are "destroy --handle h --containerBasePath p --tcpPort t", followed by "--deleteDirectories" exactly when the flag is set. |
| HostLaunching.DestroyArgumentPositions | IronFoundry.Warden/Containers/ContainerHostLauncher.cs:158-164 | The handle and the port are at fixed positions, and the last word is the delete flag exactly when it is set. |
| HostLaunching.DestroyArguments | IronFoundry.Warden/Containers/ContainerHostLauncher.cs:158-164 | The janitor's argument string; `DestroyArgumentsWords` and `DestroyArgumentPositions` state its words. |
| HostLaunching.JanitorWordsCarry | IronFoundry.Warden/Containers/ContainerHostLauncher.cs:158-164 | The handle and the "--tcpPort" word are at their places, the port word parses to the port, and the last word is the delete flag exactly when it is set. |
| HostLaunching.DestroyArgumentsReadBack | IronFoundry.Warden/Containers/ContainerHostLauncher.cs:158-164 | When the port text parses to a port, the janitor's words carry the handle, that port and the delete flag. |
| HostLaunching.JanitorReceivesPort | IronFoundry.Warden/Containers/ContainerHostLauncher.cs:158-164 | The janitor's "--tcpPort" word parses back to the configured port, and its flag follows the configured delete setting. |
| WebApplication.Configure | IronFoundry.Warden/Tasks/WebApplicationCommand.cs:17-42 | Null or empty arguments and a blank port throw. A second argument must be "2.0" or "4.0" and becomes the runtime version. Without a second argument the version is null. |
| WebApplication.ExtraArgumentsIgnored | IronFoundry.Warden/Tasks/WebApplicationCommand.cs:31-41 | Arguments after the second change nothing. |
| WebApplication.Execute | IronFoundry.Warden/Tasks/WebApplicationCommand.cs:44-52 | The executable is iishost.exe in the directory, run there with the command line. |
| WebApplication.CommandLineOptions | IronFoundry.Warden/Tasks/WebApplicationCommand.cs:46-49 | The command line is the web-root and port options, with the runtime-version option only when a version is set. |
| WebApplication.CommandLine | IronFoundry.Warden/Tasks/WebApplicationCommand.cs:47-49 | The web server's command line; `CommandLineOptions` states its options. |
| WebApplication.WebRootOptionNoSpace | IronFoundry.Warden/Tasks/WebApplicationCommand.cs:46-49 | The web-root option is one word. |
| WebApplication.PortOptionWord | IronFoundry.Warden/Tasks/WebApplicationCommand.cs:46-49 | The port option is one word. |
| WebApplication.RuntimeVersionOptionWord | IronFoundry.Warden/Tasks/WebApplicationCommand.cs:46-49 | The runtime-version option is one word. |
| Extensions.IsNullOrEmpty | IronFoundry.Warden.Shared/ExtensionMethods.cs:67-81 | It holds exactly when the input is null or has no element. |
| Extensions.ForwardToBack | IronFoundry.Warden.Shared/ExtensionMethods.cs:23-26 | Each '/' becomes '\' and every other character stays. |
| Extensions.CollapseBackslashes | IronFoundry.Warden.Shared/ExtensionMethods.cs:11 | No two backslashes are adjacent in the result, and a non-empty input keeps its first character. |
| Extensions.ToWinPathString | IronFoundry.Warden.Shared/ExtensionMethods.cs:23-26 | The result has no '/' and no two adjacent backslashes, and every character of it is a character of the input or a backslash. |
| Extensions.ToWinPathKeepsNames | IronFoundry.Warden.Shared/ExtensionMethods.cs:23-26 | All characters other than '/' and '\' are kept, in their order. |
| Extensions.ToWinPathIdempotent | IronFoundry.Warden.Shared/ExtensionMethods.cs:23-26 | Converting twice gives the same path as converting once. |
| Extensions.CollapseKeepsCharacters | IronFoundry.Warden.Shared/ExtensionMethods.cs:11 | Collapsing only removes characters: every character of the result occurs in the input. |
| Extensions.Backslashes | IronFoundry.Warden.Shared/ExtensionMethods.cs:11 | A run of n backslashes has length n and holds only backslashes. |
| Extensions.CollapseAppend | IronFoundry.Warden.Shared/ExtensionMethods.cs:11 | Collapsing a text that starts with a non-backslash is collapsing the part before it and the part from it on, separately. |
| Extensions.CollapseRun | IronFoundry.Warden.Shared/ExtensionMethods.cs:11 | A run of one or more backslashes collapses to exactly one backslash. |
| Extensions.CollapseRunBetween | IronFoundry.Warden.Shared/ExtensionMethods.cs:11 | A run of one or more backslashes between two texts that do not touch it with a backslash becomes exactly one backslash, and the texts on both sides collapse on their own. |
| Extensions.ForwardToBackAppend | IronFoundry.Warden.Shared/ExtensionMethods.cs:23-26 | Replacing '/' distributes over concatenation. |
| Extensions.ToWinPathRunBetween | IronFoundry.Warden.Shared/ExtensionMethods.cs:23-26 | A run of one or more '/' and '\' between two texts that do not touch it with a separator becomes exactly one backslash, and the texts on both sides are converted on their own. |
| Extensions.ToWinPathPlain | IronFoundry.Warden.Shared/ExtensionMethods.cs:23-26 | A name without '/' or '\' is returned unchanged. |
| Extensions.ToListOrNull | IronFoundry.Warden.Shared/ExtensionMethods.cs:83-89 | Null for null, and otherwise the same elements in the same order. |
| Extensions.ToArrayOrNull | IronFoundry.Warden.Shared/ExtensionMethods.cs:91-97 | Null for null, and otherwise a fresh array holding the same elements in order. |
| Extensions.CompactSeq | IronFoundry.Warden.Shared/ExtensionMethods.cs:99-105 | The result holds no null and keeps every non-null element. |
| Extensions.CompactAppend | IronFoundry.Warden.Shared/ExtensionMethods.cs:99-105 | Compacting distributes over concatenation, so the order is kept and only nulls are dropped. |
| Extensions.Compact | IronFoundry.Warden.Shared/ExtensionMethods.cs:99-105 | Null for null, and otherwise the elements with the nulls removed. |
| Extensions.StringBuilder.SmartAppendLine | IronFoundry.Warden.Shared/ExtensionMethods.cs:131-138 | The line and a newline are appended only when the line is not null or white space, and the same builder is returned. |
| Extensions.Postmatch | IronFoundry.Warden.Shared/ExtensionMethods.cs:146-150 | The target's suffix from the match's end. A null match or target throws, and so does an end outside the target. |
| WinPaths.Combine | IronFoundry.Warden/Containers/ContainerResourceHolder.cs:156 | `Path.Combine` ends with the second path, starts with the first unless the second is rooted, and is the second when it is rooted. |
| WinPaths.CombineFileName | IronFoundry.Warden/Tasks/WebApplicationCommand.cs:46-51 | A plain name combined onto a directory is the file name of the result. |
| WinPaths.FileNameAfterPart | IronFoundry.Warden/Tasks/WebApplicationCommand.cs:51 | The file name of a plain name after a separator is that name. |
| CommandLines.Words | IronFoundry.Warden/Containers/ContainerHostLauncher.cs:73-75 | Splitting an argument string at spaces gives non-empty words without spaces. |
| CommandLines.SpacedWords | IronFoundry.Warden/Containers/ContainerHostLauncher.cs:158-164 | Words joined by spaces split back into the same words. |
| JsonAccess.Index | IronFoundry.Warden.Shared/Messaging/MessagingClient.cs:79-82 | Indexing an object by a key gives its member or null. Indexing anything else throws. |
| JsonAccess.ToText | IronFoundry.Warden.Shared/Messaging/MessagingClient.cs:82 | Converting a token to text succeeds exactly when it is not null, and then gives the token's `ToString()` text. |
| Json.Text | IronFoundry.Warden.Shared/Messaging/MessagingClient.cs:82 | A JSON null gives the empty text and a string gives its raw characters, unquoted. A number gives its one-line decimal text. |
| Json.ContainerTextSpansLines | IronFoundry.Warden.Shared/Messaging/MessagingClient.cs:82 | The text of a non-empty array or object is indented JSON: a line break follows the opening bracket, and the closing bracket stands on its own line. |
| Json.SinglePropertyText | IronFoundry.Warden.Shared/Messaging/MessagingClient.cs:82 | An object with one scalar property is written on three lines, with the property indented two spaces as `"name": value`. |
| JsonAccess.AsString | IronFoundry.Warden.ContainerHost/MessageDispatcher.cs:18 | A cast to string is null for a missing or null token and throws for an array or object. |
| JsonAccess.AsInt32 | IronFoundry.Warden/Containers/ProcessLauncher/ProcessLauncher.cs:56 | A cast to int gives a number in the 32-bit range, throws OverflowException for a number outside it, and throws for a missing token. |
| JsonAccess.ObjectNotInt32 | IronFoundry.Warden/Containers/ProcessLauncher/ProcessLauncher.cs:56 | Casting an object to int throws ArgumentException "Can not convert Object to Int32.". |
| JsonAccess.ParseInt32 | IronFoundry.Warden/Containers/ContainerManager.cs:106 | White space before and after the number is skipped. A success is a 32-bit value: the decimal value of the digits, negated after a '-'. Any failure is a FormatException or an OverflowException. |
| JsonAccess.TrimStart | IronFoundry.Warden/Containers/ContainerManager.cs:106 | A suffix of the text that does not start with white space. |
| JsonAccess.TrimEnd | IronFoundry.Warden/Containers/ContainerManager.cs:106 | A prefix of the text that does not end with white space. |
| JsonAccess.TrimStartDropsWhite | IronFoundry.Warden/Containers/ContainerManager.cs:106 | Every character `TrimStart` removes is white space. |
| JsonAccess.TrimEndDropsWhite | IronFoundry.Warden/Containers/ContainerManager.cs:106 | Every character `TrimEnd` removes is white space. |
| JsonAccess.ParseSigned | IronFoundry.Warden/Containers/ContainerManager.cs:106 | The signed digits without surrounding white space: an optional sign and at least one digit give their value when it fits in 32 bits; anything else is a FormatException, and a value outside 32 bits an OverflowException. |
| JsonAccess.TrimStartAfterWhite | IronFoundry.Warden/Containers/ContainerManager.cs:106 | White space in front of a text does not change what `TrimStart` keeps. |
| JsonAccess.TrimEndBeforeWhite | IronFoundry.Warden/Containers/ContainerManager.cs:106 | White space after a text does not change what `TrimEnd` keeps. |
| JsonAccess.TrimmedIgnoresTail | IronFoundry.Warden/Containers/ContainerManager.cs:106 | White space after a text does not change its trimmed form. |
| JsonAccess.WhiteSpaceAroundIgnored | IronFoundry.Warden/Containers/ContainerManager.cs:106 | Parsing a text surrounded by white space gives what parsing the text alone gives. |
| JsonAccess.IntTextParses | IronFoundry.Warden/Containers/ContainerManager.cs:106 | The text of any 32-bit integer parses back to that integer. |
| JsonAccess.SpacedIntTextParses | IronFoundry.Warden/Containers/ContainerManager.cs:106 | The text of a 32-bit integer with white space around it parses back to that integer. |
| StartInfos.NewStartInfo | IronFoundry.Warden/Containers/ContainerHostLauncher.cs:166-167 | A default start info has the file name and arguments, and uses the shell with no redirection. |
| StartInfos.HostStartInfo | IronFoundry.Warden/Containers/ContainerHostLauncher.cs:77-83 | The host start info has all three streams redirected and no shell. |

## Left out

- Asynchrony. `Task`, `ContinueWith`, `TaskCompletionSource` completion, cancellation tokens and locks are modelled sequentially. A task is a Pending, Completed or Faulted value, and the transport's cancellation token is an epoch counter with a cancelled flag.
- JSON text. Parsing and serialisation by the JSON library are not modelled. Parsing is a parameter that may fail. The request frame and the request encoding of the launchers are parameters as well. Only `JObject.FromObject` of the response classes, the compact one-line writer and the indented writer behind `ToString()` are modelled.
- Operating-system processes and Win32 calls. `Process.Start`, `WaitForExit`, the job-object handle and the native calls of the PInvoke files are not modelled. A process is an id with exited, killed and disposed flags. A job is a handle and a set of member ids. Whether the janitor exits in time is a parameter.
- `Debug.Assert` in `StopProcesses` and all NLog logging calls are not modelled, since neither changes state.
- Stubs.ContainerStub.GetInfo: the IP address lookup is a parameter, and the system process list and job times are parameters of the statistics members.
- HostDispatch.Fold: `StringComparer.OrdinalIgnoreCase` is modelled on ASCII letters only. Environment variable names are compared case-sensitively.
- ProcessTracking.ProcessManager.CreateProcess: the launcher is not called here. What it returned is a parameter, because the `LaunchProcess(CreateProcessStartInfo, …)` overload this revision calls is not in the files shown. The `ProcessManager(containerUser)` convenience constructor is not modelled.
- ProcessStatistics.Found: `GetProcessById` throwing ArgumentException for a vanished process, and the catch that skips it, are modelled as a map lookup.
- ProcessTracking.ProcessManager.OnProcessExited: the `Exited` event subscriptions are a set of process ids.
- HostLaunching.ContainerHostLauncher.Stop: `SafeKill` is not in the files shown. It is modelled as `Kill` on the host process, and any exception it may throw is not modelled.
- ProcessTracking.ProcessManager.Dispose: the call `processLauncher.Dispose()` is not modelled, because `ProcessLauncher` declares no `Dispose` in this revision. The manager holds no launcher in the model.
- ResourceHolders.ContainerResourceHolder.Destroy: `JobObject(name)` and `TerminateProcessesAndWait` are not in the job object shown, so the teardown models them as collaborator steps with a fault parameter each.
- `ContainerResourceHolder.Create` is not modelled. It creates a real user account and directory.
- Containers.ContainerManager.DestroyContainer: the janitor's own outcome is a parameter. The manager passes five arguments, while `ContainerHostLauncher.DestroyContainerAsync` takes four. The model keeps the manager's call and the launcher's argument list separate and joins them through `JanitorReceivesPort`.
- `ContainerManager.RestoreContainers` and `RemoveAllContainersAsync` are not modelled. They scan directories inside `Task.Run`. `ContainerManager.Dispose` is an empty method.
- Launcher.ProcessLauncher.RequestStartProcess: the source builds a `CreateProcessMessage(si)`, a type that is not in this revision. The request is modelled by `CreateProcessMessage.RequestFor`.
- `ContainerStub` logging, `RunCommandAsync`, `LimitMemory`, `MemoryLimitReached`, `GetExecutionContext`, `AttachEmitter`, the `OutOfMemory` event and the plain property getters are not modelled. They log, delegate to code not in this model, or only read a field.
- HostLaunching.ContainerHostLauncher.Start: the working directory argument is accepted and unused, as in the source.
- `ToSecureString`, `ToUnsecureString`, `Hexdigest` and the `TcpClient` and `Timer` extensions are not modelled. They cover secure-string marshalling, SHA-1 over a file, sockets and timers.
- `IronFoundry.Warden.ContainerHost/Program.cs` is not modelled: it is a console read/dispatch/write loop. Its CreateProcess handler's reply shape is used in `Launcher.HostReply`. `ProcessCommand`, the configuration loader, `IPUtilities` and `Impersonator` are not part of this model.
- Messaging.AfterPublish: its own contract states only the length and the no-change-on-failure case. What a publish does is stated by `Correlate`, `OnlyCorrelatedPublisherChanges`, `SynchronousReplyCorrelates` and `ErrorFramePublished`.
- JsonAccess.ToText: JSON numbers are integers in this model, so the text of a fractional or exponent number is not modelled. The culture-dependent formatting of such numbers is left out with them.
- JsonAccess.ParseInt32: the white space, sign and digits of `NumberStyles.Integer` in the invariant culture are modelled. Trailing null characters, which .NET also skips, and the sign symbols of other cultures are not.
- WinPaths.Combine: the argument checks of .NET Framework's `Path.Combine` are not modelled. It throws ArgumentNullException for a null part, and ArgumentException "Illegal characters in path." for a part holding '"', '<', '>', '|' or a character below U+0020. Strings are never null in the model, and the member always returns a path.
- WinPaths.FileName: the check of `Path.GetFileName` for the same illegal characters, and its ArgumentException, are not modelled, and the member always returns a name.
- HostLaunching.ContainerHostLauncher.DisposeMessageHandling: the source calls `messageTransport.Dispose()` (ContainerHostLauncher.cs:144), which the `MessageTransport` shipped with it does not declare, so that line does not type-check. The model records the released transport in `releasedTransports` instead.
- HostLaunching.ContainerHostLauncher.Start: the client's handler passes its serialised `string` to `PublishAsync(JObject)` (ContainerHostLauncher.cs:97-99), which does not type-check against the shipped `MessageTransport`. The model writes the compact text of the request frame through `PublishAsync`.
- Messaging.MessagingClient.SendMessage: a request id is a non-null string in the model, so the ArgumentNullException that `Dictionary.Add` raises for a null id (MessagingClient.cs:53) cannot occur.
- CommandLines.Words: it models how the host splits its argument string at single spaces, not the full Windows command-line quoting rules.

## Findings

The launcher and both dispatchers are modelled as the code is written. Each corrected definition sits beside its as-written one, with the intended property proved about it.

| source | as written | input that shows it | evidently intended | confidence | as-written member | corrected member |
|---|---|---|---|---|---|---|
| IronFoundry.Warden.Shared/Messaging/JsonRpcResponse.cs:31-36 | `JsonRpcErrorInfo` declares `Code`, `Message` and `Data` without member-name annotations. A prebuilt `JsonRpcErrorResponse` returned by a handler is serialised by `JObject.FromObject` (IronFoundry.Warden.ContainerHost/MessageDispatcher.cs:27-30) under those capitalised names. The client then reads `error["code"]` (IronFoundry.Warden.Shared/Messaging/MessagingClient.cs:80), gets null, and `(int)null` throws. | Any handler that returns `new JsonRpcErrorResponse(id)`: the client's `BuildErrorResponse` throws ArgumentNullException instead of delivering the error. | The error object uses the lower-case member names `code`, `message` and `data` of section 5.1 of the JSON-RPC 2.0 Specification. | medium, not executed | JsonRpc.FrameAsWritten, Messaging.PrebuiltErrorFrameUnreadable | JsonRpc.Frame, Messaging.ErrorFrameRoundTrip |
| IronFoundry.Warden/Containers/ProcessLauncher/ProcessLauncher.cs:56 | The pid is read as `(int)response["result"]`. The host's CreateProcess handler replies with the result object `{"Id": pid}` (IronFoundry.Warden.ContainerHost/Program.cs:37-42, serialised at IronFoundry.Warden.ContainerHost/MessageDispatcher.cs:27-30). | Any successful CreateProcess reply of the host, such as `{"jsonrpc":"2.0","id":"1","result":{"Id":42}}`: the cast throws ArgumentException "Can not convert Object to Int32.". | The pid is read from the result's `Id` member. | high, not executed | Launcher.InterpretResponseAsWritten, Launcher.HostReplyRejected | Launcher.InterpretResponse, Launcher.HostReplyAccepted |
