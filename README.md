# kovey/tcp request pipeline, modelled in Dafny

This project models the sequential core of the kovey/tcp server framework. That
framework is a Swoole-based PHP TCP server that unpacks framed protobuf packets,
routes each one by its action code to a business handler, and sends the handler's
response back. The model covers the following pieces.

- **Outbound path** (`Server::send`): the frame constants of `ProtocolInterface`, the
  single write and the chunk loop, the framing options and the event allow-list.
  The module is `Server` and the constants are in `Protocol`.
- **Per-request state machine** (`Receive`): `begin`, `run`, `end` and `monitor`
  update the fields `type`, `result`, `action`, `trace` and `err`. `Server::receive`
  chains the four.
- **Handler invoker** (`Work\Handler::run`): route lookup, decoding, the instance
  check, the transaction discipline, result annotation and the `finally` collection
  loop. The modules are `WorkHandler`, `Transaction` and `Container`.
- **Router table** (`Routers`), with PHP's array-key normalisation.
- **Application object** (`App\App`):
  - the listener, global and pool registries;
  - `checkConfig`;
  - the `__init` bootstrap filter;
  - `initPool`;
  - the older `handler` entry point.
- **Connect and close callbacks** and the immutable **event records** (`Handler`,
  `Pack`, `Protobuf`).

Every call to the outside world is an `Effect`. This covers the socket, the event
bus, the logger, the monitor, the container, business code and the database. An
operation's effects are returned in order. What collaborators return or throw is
given as an input:

- listener results;
- the container's keywords and instance;
- the outcome of the handler call;
- which database call throws.

PHP runtime behaviour that the code relies on is written out in `Php`:

- `empty`, `isset` and `??`;
- integer/decimal-string conversion;
- coercion of an `int` parameter;
- array-key normalisation;
- insertion-ordered arrays.

The as-written behaviour of each defective line is kept as a separate definition,
or as the `AsWritten` case of a `Wiring` or `Variant` parameter (the `asWritten`
flag of `Server.Send`), next to the corrected one (see Findings). Several defects
are unqualified class names that resolve, relative to the file's namespace, to
classes that do not exist; PHP then raises a class-not-found Error. For a request,
the as-written chain of `Server::receive` stops at the first of them, the
`Business` return type of `Receive::begin`; the as-written cases of `run`, `end`
and `monitor` are stated for those methods on their own. Likewise
`Work\Handler::run` as written stops at `$event->getHandler()`, a method the
handler event does not have; its later as-written defects are stated for an event
that did provide the handler and method getters.

## Model

| member | source | states |
|---|---|---|
| Protocol.HeaderLayout | src/Protocol/ProtocolInterface.php:21-49 | the length field (offset 4, four bytes of format 'N') ends exactly at the 8-byte header, which is where the body starts; MAX_LENGTH is 2^21 and fits in 32 bits |
| Protocol.DecodeEncodeN | src/Protocol/ProtocolInterface.php:21 | decoding a big-endian 'N' field gives back the packed value reduced modulo 2^32 |
| Protocol.LengthFieldRoundTrip | src/Protocol/ProtocolInterface.php:21-35 | every length up to MAX_LENGTH survives the length field unchanged |
| Protocol.FrameLayout | src/Protocol/ProtocolInterface.php:28-49 | a frame of at most MAX_LENGTH bytes declares its own total length and its body starts at BODY_OFFSET |
| Protocol.PacketAccessors | src/Protocol/ProtocolInterface.php:60-74 | a packet built from (body, action) returns exactly that body from getMessage and that action from getAction |
| Events.HandlerEvent.GetFd | src/Event/Handler.php:43-46 | getFd returns the fd as a decimal string that parses back to the fd |
| Events.HandlerEventAccessors | src/Event/Handler.php:29-61 | the getters of a handler event return the constructor arguments, and stopPropagation keeps the fd |
| Events.HandlerEvent.IsPropagationStopped | src/Event/Handler.php:68-71 | always true |
| Events.HandlerEvent.StopPropagation | src/Event/Handler.php:78-81 | returns the same event, unchanged |
| Events.PackEventAccessors | src/Event/Pack.php:22-36 | getPacket and getAction return the constructor packet and action |
| Events.PackEvent.IsPropagationStopped | src/Event/Pack.php:43-46 | always true |
| Events.PackEvent.StopPropagation | src/Event/Pack.php:53-56 | returns the same event, unchanged |
| Events.ProtobufEvent.GetMessage | src/Event/Protobuf.php:26-29 | equals the wrapped packet's getMessage |
| Events.ProtobufEvent.GetAction | src/Event/Protobuf.php:31-34 | equals the wrapped packet's getAction |
| Events.ProtobufEventDelegates | src/Event/Protobuf.php:21-34 | an event wrapping Packet(body, action) gives back that body and action |
| Events.ProtobufEvent.IsPropagationStopped | src/Event/Protobuf.php:41-44 | always true |
| Events.ProtobufEvent.StopPropagation | src/Event/Protobuf.php:51-54 | returns the same event, unchanged |
| Server.Send | src/Server/Server.php:126-149 | see the paragraph after this table |
| Server.WriteChunks | src/Server/Server.php:142-146 | the substr loop writes exactly the slices of the data, in order |
| Server.ChunksConcat | src/Server/Server.php:142-146 | the slices written in order concatenate to the packed data |
| Server.ChunksShape | src/Server/Server.php:142-146 | every slice is non-empty and at most MAX_LENGTH; all but the last are exactly MAX_LENGTH; slice k is `substr(data, k*MAX_LENGTH, MAX_LENGTH)` |
| Server.ChunksCount | src/Server/Server.php:142-146 | there are exactly ceil(L / MAX_LENGTH) slices |
| Server.SmallDataOneWrite | src/Server/Server.php:137-140 | data of at most MAX_LENGTH bytes that is not falsy goes out in one write of the whole data |
| Server.LargeDataSlices | src/Server/Server.php:142-148 | for L > MAX_LENGTH: ceil(L / MAX_LENGTH) writes, slice k starting at k*MAX_LENGTH, together equal to the data |
| Server.NotExistError | src/Server/Server.php:128-130 | the intended error for a missing connection is a connection-close exception |
| Server.Framing | src/Server/Server.php:45-48 | each framing option is the configured value when it is set and not null, otherwise the matching protocol constant |
| Server.DefaultFraming | src/Server/Server.php:45-48 | with nothing configured the options are (2097152, "N", 4, 8) |
| Server.SupportEventsExactly | src/Server/Server.php:74-81 | the allow-list holds exactly handler, unpack, pack, connect, close and error |
| Receive.Initial | src/Server/Receive.php:56-68 | after begin: type "success", action 0, empty result, empty trace and err |
| Receive.Receive.Begin | src/Server/Receive.php:56-68 | sets the fields to the initial state for the given trace id |
| Receive.TypeOf | src/Server/Receive.php:82-101 | a connection-close exception sorts as connection_close_exception, a Busi/Kovey exception as busi_exception, and anything else as error_exception; never success |
| Receive.Caught | src/Server/Receive.php:82-101 | the type follows the exception; the trace id and the action are kept |
| Receive.CaughtEffects | src/Server/Receive.php:82-101 | see the paragraph after this table |
| Receive.Receive.Catch | src/Server/Receive.php:82-101 | new fields and effects are those of `Caught` |
| Receive.RunSpec | src/Server/Receive.php:70-104 | run always starts by dispatching unpack, and never changes the trace id |
| Receive.Receive.Run | src/Server/Receive.php:70-104 | the new fields and the effects are those of `RunSpec` from the old fields |
| Receive.RunWithoutPacket | src/Server/Receive.php:73-78 | a non-packet closes the connection and never dispatches the handler event; no field changes, so type stays success |
| Receive.RunSuccess | src/Server/Receive.php:80-81 | a handler that returns: action is the packet's action, result is the handler's answer, type unchanged |
| Receive.RunHandlerThrows | src/Server/Receive.php:82-101 | see the paragraph after this table |
| Receive.HandlerEventArityError | src/Server/Receive.php:81 | the four-argument construction raises an error of the catch-all class |
| Receive.RunAsWrittenNeverDispatches | src/Server/Receive.php:81 | as written no handler event is ever dispatched; a valid packet always ends as error_exception with the result unchanged |
| Receive.RunClosesNullAsWritten | src/Server/Receive.php:82-85 | as written a connection-close exception from unpack closes null, not the fd; corrected, it closes the fd |
| Receive.RunNonPacketClosesNullAsWritten | src/Server/Receive.php:74-78 | the exact effects of a non-packet: log, then close null as written, close the fd when corrected |
| Receive.EndSpec | src/Server/Receive.php:106-120 | see the paragraph after this table |
| Receive.ActionTypeError | src/Server/Receive.php:113 | an action that cannot be coerced to int raises an error of the catch-all class |
| Receive.Receive.End | src/Server/Receive.php:106-120 | effects and escaping exception are those of `EndSpec` on the current fields |
| Receive.SerializedResult | src/Server/Receive.php:124-128 | the intended monitor keeps the result's keys and every value but `message`, replaces a message object by its JSON form, and leaves no message object |
| Receive.MonitorKeepsObjectAsWritten | src/Server/Receive.php:124-128 | as written a message object reaches the monitor record unchanged; the intended monitor reports its JSON form |
| Receive.RecordOf | src/Server/Receive.php:131-152 | the record's type, action, traceId and ip equal the fields; class, method, params and response come from the result, or '' when unset; service and from are the service name; service_type is "tcp" |
| Receive.Receive.Monitor | src/Server/Receive.php:122-155 | only `result` changes: as written it stays as it is, corrected a message object is serialised; the record is `RecordOf` the new fields |
| Receive.EndGoneConnectionAsWritten | src/Server/Server.php:128-130 | as written, a response for a gone connection closes and logs nothing, and a non-connection-close error escapes end; as intended the connection is closed and the exception logged |
| Receive.ReceiveSpec | src/Server/Server.php:108-115 | a monitor record is sent exactly when no exception escapes the chain |
| Receive.ReceiveStopsAtBeginAsWritten | src/Server/Receive.php:56-68 | as written every request fails in begin with a TypeError for the `Business` return type: no effects, no record |
| Receive.ReceiveCorrected | src/Server/Server.php:108-115 | corrected, the effects are run's (unpack first) followed by end's, and the record, sent iff nothing escapes end, is built from run's state with the serialised result and the request's trace id |
| Receive.HandleReceive | src/Server/Server.php:108-115 | a fresh Receive driven through begin, run, end and monitor gives exactly `ReceiveSpec` |
| Router.Routers.constructor | src/App/Router/Routers.php:18-21 | a fresh table returns null for every code |
| Router.Routers.AddRouter | src/App/Router/Routers.php:23-27 | see the paragraph after this table |
| Router.Routers.GetRouter | src/App/Router/Routers.php:29-32 | returns the route stored under the code's normalised key, or null; it only reads the table |
| Php.SameSlotIff | src/App/Router/Routers.php:25 | a string code and an int code address the same route exactly when the string is the int's decimal form |
| Php.IntParam | src/Server/Receive.php:113 | an int passes unchanged, a decimal string in range passes as its value, and null or an object raises TypeError |
| Exceptions.MissingReturn | src/Server/Connect.php:23 | a function that declares a return type and ends without `return` raises an error of the catch-all class |
| Exceptions.ClassNotFound | src/Server/Server.php:129 | an unresolvable class name raises an error of the catch-all class, which no catch of a framework exception stops |
| Exceptions.ReturnTypeError | src/Server/Receive.php:56 | returning a value outside the declared return type raises an error of the catch-all class |
| Exceptions.UndefinedMethod | src/Work/Handler.php:67 | calling a method the object's class does not define raises an error of the catch-all class |
| Transaction.Transact | src/Work/Handler.php:77-88 | see the paragraph after this table |
| Transaction.TransactTrace | src/Work/Handler.php:77-88 | the exact database trace for each case: none, [begin], [begin, rollback], [begin, commit], or [begin, commit, rollback] |
| Transaction.TransactUnreached | src/Work/Handler.php:77-85 | a call that throws before reaching anything gives a thrown outcome and only database calls |
| Transaction.TransactUnreachedMatches | src/Work/Handler.php:77-85 | it has the outcome and exactly the database calls of `Transact` for a call throwing the same exception, without the call |
| Transaction.TransactionDiscipline | src/App/App.php:298-306 | commit only after a call that returned; rollback only after a throw, and the outcome is then a throw; commit and rollback together only when commit threw |
| Effects.DbTraceAppend | src/Work/Handler.php:77-88 | the database trace of a concatenation is the concatenation of the traces |
| WorkHandler.RouteMissError | src/Work/Handler.php:48-51 | the intended route-miss error is a connection-close exception with code 1000 |
| WorkHandler.RouteMissErrorAsWritten | src/Work/Handler.php:50 | as written the route miss raises an error of the catch-all class (an undefined function) |
| WorkHandler.RouteMissClassification | src/Work/Handler.php:50 | the pipeline sorts the as-written error as error_exception and the intended one as connection_close_exception |
| WorkHandler.WorkRouteMiss | src/Work/Handler.php:48-51 | a route miss fails with the connection-close error and has no effects: no decode, no container call, no transaction, no finally loop |
| WorkHandler.Decode | src/Work/Handler.php:52-65 | see the paragraph after this table |
| WorkHandler.DecodeAsWritten | src/Work/Handler.php:56-65 | as written decoding dispatches nothing; it fails with the class-not-found error exactly on the envelope path with an encrypt listener, and otherwise yields the intended message |
| WorkHandler.NotHandlerError | src/Work/Handler.php:71-73 | the error for a non-handler instance is a connection-close exception |
| WorkHandler.WorkNotHandler | src/Work/Handler.php:71-73 | a non-handler instance fails the run with that connection-close error, and no handler method is called |
| WorkHandler.WorkClientIpFirst | src/Work/Handler.php:75-80 | setClientIp happens before every handler call |
| WorkHandler.HandlerCall | src/Work/Handler.php:110-117 | triggerHandler calls business code (directly, or through run_handler when listened) and touches no database |
| WorkHandler.WorkRunShape | src/Work/Handler.php:52-106 | a run's effects are the decode and container calls, then the try block, then the finally loop; neither the first nor the last part calls business code or the database |
| WorkHandler.WorkTransactions | src/Work/Handler.php:77-88 | with openTransaction: [begin, commit] on success; [begin, rollback] on a throw, which is rethrown unchanged; no database call without openTransaction or a usable instance |
| WorkHandler.Annotate | src/Work/Handler.php:94-98 | the result gains class, method and params and keeps every other key |
| WorkHandler.WorkAnnotates | src/Work/Handler.php:90-98 | a run that returns gives the handler's result annotated with the handler name, the method name and the message's JSON |
| WorkHandler.CollectCalls | src/Work/Handler.php:101-106 | the intended finally loop makes only collect calls, at most one per keyword value |
| WorkHandler.CollectCallsExactly | src/Work/Handler.php:101-106 | it collects exactly the pooled connections among the keyword values |
| WorkHandler.CollectKeywords | src/Work/Handler.php:101-106 | the loop's effects equal `CollectCalls` of the values in order |
| WorkHandler.CollectKeywordsAsWritten | src/Work/Handler.php:101-106 | as written the loop collects nothing, and throws exactly the `FirstCollectError` of the values |
| WorkHandler.FirstCollectErrorNamesFirst | src/Work/Handler.php:101-106 | the as-written loop's error names the first value that is not a pooled connection, every earlier value being one |
| WorkHandler.FlagDefeatsCollectAsWritten | src/Work/Handler.php:103 | any keywords with a plain openTransaction entry make the as-written loop throw; the intended loop collects every pooled connection |
| WorkHandler.WorkFinallyRuns | src/Work/Handler.php:101-106 | once the route is found, the effects end with the collection, whatever the outcome |
| WorkHandler.FirstCollectError | src/Work/Handler.php:101-106 | the as-written loop raises nothing iff every value is a pooled connection, and what it raises is of the catch-all class |
| WorkHandler.WorkRunAsWritten | src/Work/Handler.php:46-68 | on the server's handler event, every run as written throws an error of the catch-all class and has no effect at all: the route miss, the encrypt path, or else the missing `getHandler` |
| WorkHandler.WorkRunStopsAtGettersAsWritten | src/Work/Handler.php:67-68 | as written, a found route and a decoded message end in the undefined-method error, sorted as error_exception, with no effect; the intended run, with the bound handler and method, asks the container for that class |
| WorkHandler.WorkRunAsWrittenEarlyErrors | src/Work/Handler.php:48-61 | as written a route miss raises the undefined-function error and the envelope path with an encrypt listener the class-not-found error, both with no effect; the intended run closes on a miss and dispatches the envelope first |
| WorkHandler.WorkRunAsWrittenFinallyWins | src/Work/Handler.php:67-106 | as written the run stops at the getters; for an event that had them, keywords with a value that is not a pooled connection make every run that reaches the try block throw the finally loop's error, whatever the handler did, with no connection handed back; the intended run ends with the try block's outcome |
| WorkHandler.WorkRunAsWrittenAgrees | src/Work/Handler.php:67-106 | as written the run stops at the getters; for an event that had them, with only pooled connections among the keywords, off the encrypt path and without a run_handler listener, the outcome would be the intended one and the effects the intended ones without the collection |
| WorkHandler.WorkRunAsWrittenRunHandler | src/Work/Handler.php:67-114 | as written the run stops at the getters; for an event that had them, with a run_handler listener and a handler instance, the run throws and calls no business code, an opened transaction is begun and rolled back, and the error is class-not-found unless the database or the finally loop raises |
| WorkHandler.WorkRunDispatchesRunHandler | src/Work/Handler.php:110-114 | as intended, with a run_handler listener and a begun (or no) transaction, the call is dispatched to the listener |
| WorkHandler.Handler.constructor | src/Work/Handler.php:29-32 | keeps the handler namespace; no router table yet |
| WorkHandler.Handler.SetRouters | src/Work/Handler.php:34-38 | installs the router table |
| WorkHandler.Handler.AddRouter | src/Work/Handler.php:40-44 | before setRouters, the uninitialised-property error; otherwise registers the route in the installed table, last registration wins |
| WorkHandler.Handler.Run | src/Work/Handler.php:46-108 | see the paragraph after this table |
| Connect.OnListenerError | src/Server/Connect.php:27-35 | a listener exception closes the fd first and closes nothing else |
| Connect.Connect | src/Server/Connect.php:23-36 | see the paragraph after this table |
| Connect.ConnectAsWritten | src/Server/Connect.php:23-36 | the same effects, but the missing `return` always escapes as an error |
| Connect.ConnectAlwaysThrowsAsWritten | src/Server/Connect.php:23-36 | even a listener that completes leaves the as-written callback with an escaping error, while the corrected one lets nothing escape |
| Close.Close | src/Server/Close.php:20-29 | dispatches close for the fd first; nothing else when the listener completes; one exception log when it throws; never a close or a business log |
| App.App.constructor | src/App/App.php:120-126 | all registries are empty |
| App.App.RegisterGlobal | src/App/App.php:154-158 | getGlobal(name) is the new value and every other name is unchanged |
| App.App.GetGlobal | src/App/App.php:167-170 | the value last registered under the name, or null |
| App.App.On | src/App/App.php:181-189 | a non-callable leaves the listeners unchanged; a callable replaces the listener of that event only |
| App.App.SetConfig | src/App/App.php:198-202 | replaces the configuration and nothing else |
| App.App.RegisterBootstrap | src/App/App.php:552-556 | replaces the built-in bootstrap and nothing else |
| App.App.RegisterCustomBootstrap | src/App/App.php:565-569 | replaces the custom bootstrap and nothing else |
| App.App.RegisterPool | src/App/App.php:642-647 | see the paragraph after this table |
| App.App.GetPool | src/App/App.php:658-661 | a pool exactly when one was registered for that (name, partition), and then the pool stored there |
| App.MissingField | src/App/App.php:535-539 | None iff every field of the section is set; otherwise the first field that is not |
| App.FirstMissingNone | src/App/App.php:516-543 | the check passes iff every required section and field is set |
| App.FirstMissingNamesIt | src/App/App.php:530-540 | a failing check names a missing section, or a missing field of a section that is set, and every earlier section is complete |
| App.ConfigError | src/App/App.php:532-537 | the error is a framework exception with code 500 |
| App.ConfigCheck | src/App/App.php:516-543 | no exception iff the configuration is complete; any exception is a framework exception with code 500 |
| App.App.CheckConfig | src/App/App.php:516-543 | the nested loop throws exactly what `ConfigCheck` gives |
| App.InitCalls | src/App/App.php:219-244 | the bootstrap of one object calls only `__init` methods, on that object, and no more than it lists |
| App.InitCallsExactly | src/App/App.php:222-229 | an `__init` method is called exactly when the object lists it |
| App.InitCallsOnce | src/App/App.php:222-229 | each `__init` method is called as many times as it is listed |
| App.InitIndices | src/App/App.php:222-229 | the positions of the `__init` methods, strictly ascending, covering every one |
| App.InitCallsInOrder | src/App/App.php:222-229 | call k is the `__init` method at the k-th `__init` position, so the calls are in listed order |
| App.RunInits | src/App/App.php:222-229 | the loop's calls equal `InitCalls` |
| App.BootCalls | src/App/App.php:221 | a bootstrap that is not an object is skipped |
| App.App.Bootstrap | src/App/App.php:219-244 | see the paragraph after this table |
| App.ErrorLog | src/App/App.php:465-467 | a pool with errors gets one error log line of its joined errors; a pool without errors gets none |
| App.InitPartitions | src/App/App.php:461-467 | the loop over one name's partitions gives `InitGroup` |
| App.App.InitPool | src/App/App.php:456-481 | the effects are `InitGroups` of the registered pools, for the chosen placement of the error check |
| App.InitPoolLogsEveryPartition | src/App/App.php:456-481 | when no init throws, the intended loop initialises every partition of every pool and logs every partition's errors |
| App.InitPoolMissesEarlierPartitions | src/App/App.php:465 | as written, a first partition with errors followed by one without logs nothing; the intended loop logs it |
| App.GroupsOf | src/App/App.php:458-461 | the partitions in registration order; every name holds at least one |
| App.HandlerWithoutProtobuf | src/App/App.php:264-271 | no protobuf listener: no business code runs; the error listener's answer or an empty array is returned after an "exception" record |
| App.HandlerUnknownMessage | src/App/App.php:273-281 | a message without handler or method runs no business code and returns the error listener's answer or an empty array |
| App.HandlerNotHandler | src/App/App.php:286-293 | a non-handler instance runs no business code and opens no transaction |
| App.HandlerTransactions | src/App/App.php:295-327 | the exact database trace once business code is reached, on both paths |
| App.HandlerCatch | src/App/App.php:328-342 | the catches keep the try body's effects as a prefix and add no database or business call; a connection-close exception is rethrown; any other is logged first; with an error listener a framework (Kovey) exception is answered with "exception" and any other throwable with "throwable exception"; without one the handler escapes with the missing-return error |
| App.HandlerCatchTrace | src/App/App.php:328-342 | the catches make no database call |
| App.HandlerTryReached | src/App/App.php:283-327 | once business code is reached, the try body is the protobuf call and the two container lookups, the transaction, and on return the monitor record |
| App.HandlerTraceIsTransaction | src/App/App.php:295-342 | once business code is reached, the database sees exactly the calls of the transaction around it |
| App.HandlerCallThrows | src/App/App.php:328-342 | see the paragraph after this table |
| App.HandlerSuccess | src/App/App.php:296-327 | a call that returns (and commits) gives back the handler's result and ends with a "success" record carrying the message |
| App.HandlerSuccessAsWritten | src/App/App.php:310 | as written the path without run_handler records "exception" after a call that returned |
| App.Ucfirst | src/App/App.php:283 | the same length and tail; a lower-case ASCII first letter becomes upper case; anything else is unchanged |
| App.LegacyParams | src/App/App.php:365-374 | an empty message is recorded as "[]"; a non-object, non-empty message as itself |
| App.LegacyRecordOf | src/App/App.php:376-387 | the record's type, ip and traceId are the arguments; without a message, handler and method are '' and params "[]" |
| App.ErrorResult | src/App/App.php:266-270 | the error listener's answer when one is registered, otherwise an empty array without calling anything |
| App.LegacyCall | src/App/App.php:296-327 | the call is business code and not a database call |
| App.SuccessKind | src/App/App.php:310 | "success" whenever run_handler is listened or the corrected reading is used |

Longer contracts from the table, in full:

- **Server.Send:**
  - A missing connection throws before any effect: the connection-close error
    as intended, the class-not-found Error as written.
  - Otherwise the pack event is dispatched first, then the writes of `SendPlan`:
    nothing for falsy data, else the chunks.
  - The result is false for falsy data, the single write's result for data of at
    most MAX_LENGTH bytes, and true on the chunked path.
- **Receive.CaughtEffects:**
  - A connection-close exception closes the target and changes nothing else.
  - Any other exception records its message and trace and closes nothing.
  - The result changes only for Busi/Kovey with an error listener, and then becomes
    that listener's answer.
- **Receive.RunHandlerThrows:**
  - The type follows the exception, and the action is the packet's.
  - A connection-close exception closes this fd and leaves the result.
  - Any other exception records its message and trace and never produces a result.
  - For Busi/Kovey, the result becomes the error listener's answer only when that
    listener is registered.
- **Receive.EndSpec:**
  - Nothing happens unless the result is non-empty and has both message and action.
  - Otherwise it sends with the coerced action on this fd.
  - A missing connection, as intended, closes this fd and logs; as written the
    class-not-found Error from `send` escapes, and nothing is closed or logged.
  - An action that cannot be coerced escapes as a TypeError.
- **Router.Routers.AddRouter:**
  - The route is stored under the normalised code, and getRouter(code) returns it.
  - Every code that normalises differently is unchanged.
- **Transaction.Transact:**
  - Without a transaction, the call alone.
  - When begin throws, the begin error and nothing else.
  - Otherwise the effects are begin, the call, then database calls only.
  - A returned outcome is the call's own result.
  - A call that throws is rethrown unless the rollback throws.
- **WorkHandler.Decode:** the intended decoding, with the encrypt event of the Tcp
  event namespace (`DecodeAsWritten` is the decoding as written).
  - The message class is always the route's.
  - Without an envelope class, the message is decoded from the body.
  - With one and an encrypt listener, it is decoded from the listener's output for
    the envelope.
  - With one and no encrypt listener, the message stays unfilled.
- **WorkHandler.Handler.Run:** the run with every defect of src/Work/Handler.php
  corrected; `WorkRunAsWritten` is the run as written, and the `WorkRunAsWritten*`
  lemmas compare the two. It departs from the source at:
  - :50, where it raises the connection-close exception instead of calling an
    undefined function;
  - :60, where it dispatches the encrypt event of the Tcp event namespace;
  - :67-68 and :94-95, where it reads the handler and method bound to the action
    (`WorkEvent`) instead of calling getters the handler event lacks;
  - :103, where it collects the pooled connections instead of the other values;
  - :113, where it dispatches the run_handler event of the Tcp event namespace.
  - Without a router table, the uninitialised-property error.
  - Otherwise the outcome and effects are `WorkRun` for the route the table gives
    the packet's action.
- **Connect.Connect:**
  - Nothing escapes, and connect is dispatched first.
  - A listener that completes causes nothing else.
  - A throw closes the fd exactly once.
  - Connection-close logs nothing; Busi is logged as a business error; anything
    else is logged as an exception.
- **App.App.RegisterPool:**
  - getPool(name, partition) is the new pool.
  - Every other (name, partition) pair is unchanged, including other partitions of
    the same name.
  - A new name is appended to the iteration order.
- **App.App.Bootstrap:**
  - The effects are the built-in object's `__init` calls followed by the custom
    object's.
  - Every effect is an `__init` call, and no built-in call follows a custom one.
- **App.HandlerCallThrows:**
  - A connection-close exception from business code escapes.
  - Any other is logged with the trace id and answered by the error listener with
    "exception" (framework) or "throwable exception".
  - Without an error listener, the missing-return error escapes.
  - In a transaction, the call is rolled back and not committed.

## Left out

- **Socket I/O:** Swoole sockets, server construction and the rest of `initServer`.
  These are effects or inputs (`live`, `writeOk`).
- **Time and formatting:** clocks, timing fields of the monitor records, `round`,
  `date` and `base64_encode`.
- **Hashing and randomness:** trace-id generation (sha256, uniqid, random_int) is
  not modelled. The trace id is an input. The undefined `$fd` it reads at
  src/Server/Receive.php:61 therefore has no modelled consequence.
- **Protobuf codec:** `mergeFromString` and `serializeToJsonString` are foreign.
  A message is `ProtoMessage(class, bytes)` and its JSON form is an input function.
- **DI container internals:** `getKeywords` and `get` are inputs. So is
  `openTransaction` and the database object. The container's own exceptions from
  `getKeywords` are not modelled.
- **Logger and monitor sinks:** these are effects. `UserProcess::push` is not part
  of this model.
- **Bootstrap wiring:** src/App/Bootstrap/*.php is not part of this model. It holds
  file includes, reflection and process naming. What an `__init` method does to the
  application once called is also left out; a call is an effect.
- **src/Event/RunHandler.php** is not part of this model. Its constructor does not
  match its caller, and as written `Work\Handler` names it without importing it
  (see Findings). The intended `run_handler` dispatch is modelled as an effect
  whose outcome is an input.
- **src/Event/Connect.php** is not part of this model. It carries only the server
  handle and the fd.
- **RoutersInterface:** its non-nullable `getRouter` result is not modelled. The
  concrete `Routers::getRouter` returns null on a miss, and that is what is modelled.
- **Concurrency:** coroutine scheduling and multiple workers. Each request is
  modelled alone and sequentially.
- **Listeners that throw:** an exception from the pack, error or encrypt listener,
  from a bootstrap `__init` method, or from a container lookup is not modelled.
- **PHP engine error texts:** errors raised by PHP itself are modelled by their
  class and a short message, not by PHP's full message text. This covers the
  argument-count, type, undefined-function, undefined-method, class-not-found,
  uninitialised-property and missing-return errors.
- **Php.IntParam:** leading/trailing whitespace, numeric strings with a fraction
  or exponent, and the deprecation path are not modelled. Such strings are treated
  as a TypeError.
- **Receive.HandleReceive:** under the as-written wiring the chain stops at
  `begin`'s `Business` return type (see Findings), so the as-written defects of
  src/Server/Receive.php:76, :81, :83, :125 and src/Server/Server.php:129 are
  stated for `run`, `end`, `monitor` and `send` on their own, not for a whole
  request. The corrected wiring corrects all of them together.
- **Return-type errors:** the `Array` return type of `Work\Handler::run` is not
  checked against a non-array handler result; handler results are modelled as
  arrays.
- **Exception hierarchy:** the hierarchy of BusiException and KoveyException lives
  in a library that is not part of this model. They are treated as distinct
  classes. The legacy `handler` therefore sends a Busi exception to its Throwable
  catch, while Receive catches both together.
- **App.LegacyParams:** an array message is not modelled; arrays are not among the
  modelled values. As written, `sendToMonitor` would not encode one: `Json::encode`
  (src/App/App.php:368) names a class of the App namespace that the file does not
  import, so it raises a class-not-found Error, which the handler's `\Throwable`
  catch then handles. Every object message is treated as a protobuf message.
- **App.App.InitPool:** the branch for a pool that is not an array is not modelled.
  `registerPool` always stores an array, so it cannot be reached.
- **App.Decoded:** the handler and method names are modelled as strings. An absent
  name is the empty string.
- **App.Handler:** it takes the set of listened event names. That is the key set of
  the `events` registry that `On` maintains. Reading `config` before `setConfig` is
  not modelled; the handler namespace is a parameter.
- **pipeMessage, registerProcess, registerLocalLibPath, run, send and the other
  pass-through registrations of App:** not modelled, because they only forward to
  collaborators that are not part of this model.

## Findings

| source | as written | input that shows it | evidently intended | confidence | as-written member | corrected member |
|---|---|---|---|---|---|---|
| src/Server/Receive.php:81 | the handler event is constructed with four arguments; the constructor takes five | any packet that unpacks | pass the span id as the fifth argument | high, not executed | Receive.RunAsWrittenNeverDispatches | Receive.RunSuccess |
| src/Server/Receive.php:83 | `$serv->close($fd)` reads an undefined local variable, i.e. null | an unpack listener that throws a connection-close exception | close `$this->fd` | high, not executed | Receive.RunClosesNullAsWritten | Receive.RunHandlerThrows |
| src/Server/Receive.php:76 | `$serv->close($event->fd)` reads a property the event manager does not have, i.e. null | an unpack listener that returns something other than a packet | close `$this->fd` | high, not executed | Receive.RunNonPacketClosesNullAsWritten | Receive.RunWithoutPacket |
| src/Work/Handler.php:50 | `throw CloseConnectionException(...)` without `new` calls an undefined function | an action code with no route | throw a new connection-close exception (code 1000) | high, not executed | WorkHandler.RouteMissClassification | WorkHandler.WorkRouteMiss |
| src/Work/Handler.php:103 | the `finally` loop calls `collect()` on values that are not ManualCollectInterface, and its Error replaces the run's result or exception | keywords holding the openTransaction flag | collect the values that are ManualCollectInterface | high, not executed | WorkHandler.WorkRunAsWrittenFinallyWins | WorkHandler.CollectKeywords |
| src/Work/Handler.php:60 | `new Event\Encrypt(...)` names `Kovey\Tcp\Work\Event\Encrypt`, which does not exist, since the file imports no `Event` namespace | a route with an envelope class and a registered encrypt listener | build the encrypt event of the Tcp event namespace and dispatch it | high, not executed | WorkHandler.WorkRunAsWrittenEarlyErrors | WorkHandler.Decode |
| src/Server/Receive.php:125 | `instanceof Message` names `Kovey\Tcp\Server\Message`, which does not exist, since the file imports no `Message`, so a message object is never serialised | a handler result whose message is a protobuf object | serialise a protobuf message object to JSON | high, not executed | Receive.MonitorKeepsObjectAsWritten | Receive.SerializedResult |
| src/Server/Server.php:129 | `new CloseConnectionException(...)` names a class of the server's namespace that does not exist, since the file imports no CloseConnectionException | a response whose connection is gone | raise the framework's connection-close exception, which `end` catches | high, not executed | Receive.EndGoneConnectionAsWritten | Receive.EndSpec |
| src/Server/Receive.php:56 | `begin` (and `run`, `end`, `monitor`) declare return type `Business`, a class of the server's namespace that Receive is not, so returning `$this` raises a TypeError | any request | declare return type Receive | high, not executed | Receive.ReceiveStopsAtBeginAsWritten | Receive.ReceiveCorrected |
| src/Work/Handler.php:67-68 | `$event->getHandler()` and `$event->getMethod()` call methods that the handler event (src/Event/Handler.php, the only event dispatched under 'handler') does not define, so the run fails before the container call, outside the try | any request whose route is found and whose message decodes | read the handler and method of the action's route binding, which the route registration supplies | high, not executed | WorkHandler.WorkRunStopsAtGettersAsWritten | WorkHandler.WorkRunShape |
| src/Work/Handler.php:113 | `new Event\RunHandler(...)` names a class of the Work namespace that does not exist, since the file imports no `Event` namespace | a handler run with a run_handler listener | dispatch the run_handler event of the Tcp event namespace | high, not executed | WorkHandler.WorkRunAsWrittenRunHandler | WorkHandler.WorkRunDispatchesRunHandler |
| src/App/App.php:310 | a call that returned, on the path without run_handler, is recorded with type 'exception' | any successful call with no run_handler listener | record 'success', as the run_handler path does | medium, not executed | App.HandlerSuccessAsWritten | App.HandlerSuccess |
| src/App/App.php:465 | the error check after the partition loop reads only the last partition | pool "db" with partition 0 reporting errors and partition 1 reporting none | check each partition's errors | medium, not executed | App.InitPoolMissesEarlierPartitions | App.InitPoolLogsEveryPartition |
| src/Server/Connect.php:23-36 | declares return type Connect and has no `return` | any connect event | `return $this;` as Close does | high, not executed | Connect.ConnectAlwaysThrowsAsWritten | Connect.Connect |
