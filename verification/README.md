# grpc-lite: a verified model of its call state machines

This project models the parts of grpc-lite in which several threads, callbacks and a transport
meet, and proves what they promise over every interleaving:

- the blocking client call (`BlockingCallState`, `ClientContext`, `Channel::CallUnary`);
- the typed server layer (`TypedCallState`, `TypedRequestStreamState`, the method registry) and
  the synchronous dispatch on top of it (`CallAdmissionGate`, the handler tasks, `Write`);
- the order of all locks these objects take;
- the c-ares adapter (socket watches, queries);
- the bounded executor example;
- the benchmark programs: the echo service, the latency summary and the pipelined stream.

`dafny verify dfyconfig.toml` checks the whole project. Nothing here executes the original.

## How the model is built

A critical section under a mutex is one atomic step, and so is one operation on an atomic
variable. Concurrent objects are state machines: a record of shared state, a program counter per
thread, a step function, and `IsRun`, which holds of a sequence of states and events. Retry loops
that span sections (`RunCommand`, `Write`, `Read`) are cycles of such steps. The theorems speak of
every state of every such sequence, with any number of threads. Their invariants are proved per
operation: what a step establishes for its own thread, and what it leaves alone for the others.

Objects whose methods update fields are also modelled as classes. `BlockingCall` has the client
operations from beginning to end, with callbacks and cancels between any two of their sections. In the
others each method is one section and is proved equal to the function the state machine uses, so
that the theorems speak of the same code: `TypedService`, `CaresAdapter`, `Resolver.Adapter`, `BoundedExecutor.Object`,
`EchoService`, `Latency.Measurements`, `StreamRing`.

| files | subject |
|---|---|
| `Statuses` | error codes and statuses |
| `ClientCall`, `ClientMachine`, `ClientProofs`, `ClientTheorems`, `ClientStatus`, `BlockingCall` | the client call |
| `TypedCall`, `RequestStream`, `Registry`, `Refusals`, `TypedService` | the typed server layer |
| `ServerDispatch`, `DispatchProofs`, `DispatchStatus`, `DispatchTheorems` | synchronous dispatch |
| `Histories` | what threads did, in order |
| `LockOrder` | all locks |
| `CaresSpec`, `CaresRuns`, `CaresAdapter`, `Resolver` | the c-ares adapter |
| `BoundedExecutor` | the executor example |
| `EchoSpec`, `EchoRuns`, `EchoService` | the echo service |
| `Percentile`, `Latency` | the latency summary |
| `StreamWindow`, `StreamTimes`, `StreamRing` | the pipelined stream |

## What is assumed of the environment

Each assumption is a guard of an event or an argument of a function; nothing else is assumed.

- Atomics are sequentially consistent and a mutex section is atomic.
- Client transport: callbacks of a stream are serialised; after `Pause` no message is delivered
  until a resume; a command answered WouldBlock is owed one on_writable; on_terminal is the last
  callback; a stream that was released calls back no more. Commands may answer anything.
- Server transport: callbacks of a call are serialised and on_terminal is the last; a send
  answered WouldBlock is owed on_writable unless the call closes, and a closing call is owed
  on_terminal. The pause protocol of requests (`RequestStream.Receive`) follows `src/server.zig`; a
  transport that ignores it is covered by the results stated for any transport.
- Executor: a submission it rejects has not run and will not run; an accepted task may run any
  number of times on any threads.
- c-ares calls back any number of times inside its own functions, including to destroy the
  channel, and answers each query once.
- Event loop: a completion is called back only after it was submitted, at most once per submission.
- Echo service: one open stream per key; a stream ends by an accepted finish, a callback that
  returns an error, or on_cancel.
- Serialization, parsing, clocks, allocation and every transport answer are arguments.

## Properties of the code that do not hold as expected

- A server writer can be left waiting for ever: on_writable reaches a call only if the service can
  retain it (`Find`), and a failed retain drops the notification.
  `DispatchTheorems.LostExactlyByDrop` states exactly when a wakeup is lost,
  `DispatchTheorems.DroppedWakeupStrands` gives the execution.
- A server reader can be left waiting for ever for the same reason: a message for which the call
  cannot be retained is answered with Pause and nobody resumes; so is a resume that cannot be queued
  if the Finish after it fails too. `RequestStream.StallsExactlyWhen` states exactly when a step
  stalls the stream, `RequestStream.DroppedMessageStalls` gives the execution.
- A resolver failure can be charged to the wrong query: `force_failure` is set by a timer even if no
  query is active, and the next query reports it. `Resolver.ToldExactlyWhen` states exactly when
  a query is told what c-ares found, `Resolver.LeftoverFailure` gives the execution.
- The echo service loses a buffer if a message is set aside over another one;
  `EchoSpec.MessageKeepsExactlyWhen` states exactly when, and `EchoRuns` shows that a transport that
  respects pauses never lets it happen.
- The weights of merged latency samples add up to the count exactly when the reservoirs have room
  (`Latency.WeightIsCount`); the programs always give them room for at least one sample.

## Model

| member | source | states |
|---|---|---|
| `ClientTheorems.MailboxConserved` | include/grpcpp/impl/blocking_call.h:205-224 | in every state of every interleaving, the messages taken by all threads followed by the buffered one are the messages delivered, in order; and the Reads of each thread have returned to their callers, in order and once each, what the thread took, but for one still in its hands |
| `ClientTheorems.OneAtATime` | include/grpcpp/impl/blocking_call.h:143-150 | may deliver, slot full and resume owed never hold two at a time: a delivery never overwrites a message and at most one reader owes a resume |
| `ClientTheorems.DeliveredIsPayloads` | include/grpcpp/impl/blocking_call.h:143-150 | the delivery history the other results speak of is exactly the sequence of on_message payloads in the events |
| `ClientTheorems.NoLostWakeup` | include/grpcpp/impl/blocking_call.h:251-286 | a thread asleep in Read, Finish or RunCommand belongs to a live stream that still owes on_terminal; unless the stream was cancelled, one asleep for room is still owed on_writable, and a reader waits for a message that may come, another reader's resume, or on a stream that refused one |
| `ClientTheorems.NoDeadlock` | include/grpcpp/impl/blocking_call.h:65-320 | in every state of every interleaving, a thread inside an operation can go on, or sleeps and is owed an event, or waits for the command mutex whose holder can go on |
| `ClientTheorems.CommandSentOnce` | include/grpcpp/impl/blocking_call.h:251-286 | from the step that starts it, RunCommand has had nothing accepted while it runs; on return the transport has accepted exactly as many commands from this thread as it reports, none or one, and that one is the command asked for |
| `ClientTheorems.CommandOutcome` | include/grpcpp/impl/blocking_call.h:251-286 | a returned Send or CloseSend had its command accepted at most once; OK without that means the call had already ended well; every non-OK return had none accepted and leaves Finish able to proceed |
| `ClientTheorems.UnarySendsOnce` | include/grpcpp/channel.h:49-50 | CallUnary has its request accepted at most once and then at most one half-close, and no other thread has anything accepted |
| `ClientTheorems.TryCancelCompletes` | include/grpcpp/client_context.h:79-88 | a thread that leaves TryCancel leaves it completed, and that is never undone |
| `ClientTheorems.CancellationNotLost` | include/grpcpp/client_context.h:79-101 | for every interleaving of TryCancel with registration, Open, callbacks and Finish: once TryCancel and Open have both completed, the call is terminal or its stream exists and has received Cancel |
| `ClientTheorems.UnaryDoneStays` | include/grpcpp/channel.h:41-65 | the result of a finished CallUnary never changes in the rest of the execution |
| `ClientTheorems.UnaryOutcome` | include/grpcpp/channel.h:41-65 | CallUnary returns OK exactly when it writes the response, and then the whole execution delivered exactly that one message and ended with an OK terminal status |
| `ClientTheorems.UnaryVerdict` | include/grpcpp/channel.h:41-65 | the result of CallUnary is settled by the terminal status and the messages its Reads took: INTERNAL (13) after a second message, otherwise the status itself unless it is OK, INTERNAL (13) if OK came without a message, and OK with the one message taken as response |
| `ClientStatus.TerminalStatus` | include/grpcpp/impl/blocking_call.h:156-296 | whichever step first ends the call decides its status for good: the code and message the peer reported, 2 if the code is none of 0 to 16; or, never OK, the error the transport last answered to the thread that gave up, with the mapping of that place; or CANCELLED if the context was cancelled before the start |
| `ClientStatus.ToldStatus` | include/grpcpp/impl/blocking_call.h:226-286 | Finish returns exactly the terminal status, with the stream let go and the context told; a command that was not accepted returns that status too, or the error the transport answered |
| `ClientStatus.ResumeEndsCall` | include/grpcpp/impl/blocking_call.h:214-223 | an answer to ResumeReceive other than Ok, Closed, Unavailable and WouldBlock makes the call terminal before that Read is past its last section |
| `ClientStatus.OpenRefused` | include/grpcpp/impl/blocking_call.h:89-174 | if the metadata or the stream is refused, no stream is ever opened and the call ends with the status of that error |
| `ClientStatus.EndsOnce` | include/grpcpp/impl/blocking_call.h:288-296 | a terminal call was ended by one step, before which it was not terminal |
| `ClientProofs.NetKeeps` | include/grpcpp/impl/blocking_call.h:143-161 | on_message, on_writable and on_terminal keep the invariant that the other threads rely on; on_terminal records the code and message the peer reported unless the call was terminal before, and on_message fills an empty slot |
| `ClientProofs.OpenShared` | include/grpcpp/impl/blocking_call.h:76-176 | each step of Open keeps the shared invariant, including a cancel requested before the stream exists |
| `ClientProofs.CancelShared` | include/grpcpp/impl/blocking_call.h:178-186 | each step of Cancel and TryCancel keeps the shared invariant |
| `ClientProofs.CommandShared` | include/grpcpp/impl/blocking_call.h:250-286 | each step of RunCommand keeps the shared invariant |
| `ClientProofs.ReadStep` | include/grpcpp/impl/blocking_call.h:205-224 | each step of Read, its resume failed or not, keeps the invariant |
| `ClientProofs.FinishShared` | include/grpcpp/impl/blocking_call.h:226-244 | each step of Finish and DestroyStream keeps the shared invariant |
| `ClientProofs.StepKeeps` | include/grpcpp/impl/blocking_call.h:65-320 | one step of any thread or of the transport keeps the whole invariant, for all threads at once |
| `ClientProofs.RunKeeps` | include/grpcpp/impl/blocking_call.h:65-320 | the invariant holds in every state of every execution |
| `BlockingCall.BlockingCallState.Open` | include/grpcpp/impl/blocking_call.h:76-176 | after Open the call is terminal or has its stream, and a TryCancel made before or meanwhile has reached it; it ends the call itself only with CANCELLED for a cancelled context or with the error the transport answered |
| `BlockingCall.BlockingCallState.RunCommand` | include/grpcpp/impl/blocking_call.h:250-286 | the retry loop with callbacks and cancels between any two sections: its command is accepted at most once and exactly if it says so; success without that means the call has ended well, failure that it is terminal, and reports its status or the error the transport answered; it gives up waiting only at the horizon |
| `BlockingCall.BlockingCallState.Read` | include/grpcpp/impl/blocking_call.h:205-224 | returns the next message in the order of delivery, or none on a terminal call with nothing buffered, and keeps the mailbox law whatever the peers do; it ends the call itself only on an error that its resume is answered with |
| `BlockingCall.BlockingCallState.Finish` | include/grpcpp/impl/blocking_call.h:226-244 | returns the one terminal status, which is the code and message some peer reported or not OK, and never blocks on a terminal call |
| `BlockingCall.BlockingCallState.CallUnary` | include/grpcpp/channel.h:41-65 | a response is written exactly if the result is OK, and then it is the only message ever delivered and the call has ended well; otherwise the result is INTERNAL (13) after a second message, the status of the call, or INTERNAL (13) for OK without a message; request and half-close are accepted at most once each, in order |
| `BlockingCall.BlockingCallState.Others` | include/grpcpp/impl/blocking_call.h:143-186 | whatever callbacks and cancels happen between two sections, nothing is taken or sent, the first terminal status stays, a buffered message stays and an ended stream delivers no more; a call that becomes terminal has the code and message of a Terminates among these peers |
| `BlockingCall.BlockingCallState.Suffer` | include/grpcpp/impl/blocking_call.h:143-161 | one callback or cancel: it delivers its payload into an empty slot, moves the writable generation on, or ends a call that was not terminal with its own code and message |
| `BlockingCall.BlockingCallState.Resume` | include/grpcpp/impl/blocking_call.h:214-223 | ends the call exactly on an answer other than Ok, Closed, Unavailable and WouldBlock, with the status of that answer |
| `BlockingCall.BlockingCallState.SendAndClose` | include/grpcpp/impl/blocking_call.h:199-203 | the message and then the half-close are accepted at most once each; failure leaves the call terminal |
| `BlockingCall.BlockingCallState.TryCancel` | include/grpcpp/client_context.h:79-88 | a cancelled context whose call is registered has requested the cancel, or the call is terminal |
| `Statuses.ErrorStatus` | include/grpcpp/impl/blocking_call.h:19-54 | what each status code says of the error it reports, in both directions; no error is reported as success |
| `Statuses.NativeStatus` | include/grpcpp/impl/blocking_call.h:56-63 | codes of the enumeration are passed through; any other becomes UNKNOWN, never OK |
| `Statuses.CommandFailure` | include/grpcpp/impl/blocking_call.h:271-274 | RESOURCE_EXHAUSTED is reported for exactly OutOfMemory, WouldBlock and OutOfRange, the other errors as ErrorStatus reports them; never success |
| `Statuses.SendErrorStatus` | include/grpc_lite/cpp/typed_service.hpp:169-176 | RESOURCE_EXHAUSTED for exactly WouldBlock, OutOfMemory and OutOfRange, INTERNAL for the rest; never OK |
| `LockOrder.OperationsBalanced` | include/grpc_lite/cpp/typed_service.hpp:523-702 | every operation of client call, context, typed call, request stream, call state and registry, with its locks and calls of application code in source order, takes locks in rising rank, calls out with none held and releases what it took |
| `LockOrder.NoCycle` | include/grpc_lite/cpp/typed_service.hpp:26-274 | with any number of threads and calls, no reachable state has a cycle of threads waiting for each other's locks |
| `LockOrder.CallbacksUnlocked` | include/grpc_lite/cpp/typed_service.hpp:74-145 | observers and handlers are called, in the middle of the operations that call them and however deep application code re-enters, with none of these locks held; no thread asks for a lock it holds |
| `LockOrder.RanksRise` | include/grpcpp/client_context.h:79-115 | along any chain of waiting threads the rank of the wanted lock rises |
| `CaresRuns.WatchesSafe` | src/cares_adapter.zig:172-293 | in every execution, re-entrant socket changes included: the loop only holds completions of allocated watches whose flags say so; map and allocations are in bijection; no idle watch is left; and until a shutdown every socket c-ares last declared an interest in has a watch if there was memory for it, the watch waits for exactly the directions c-ares asked for last, and the loop holds the poll of each of them or the cancel that leads to it |
| `CaresRuns.ReadinessPassedOn` | src/cares_adapter.zig:165-170 | a successful poll is passed on to c-ares exactly if no shutdown has begun and the last word of c-ares on the socket asks for that direction |
| `CaresRuns.NestDirected` | src/cares_adapter.zig:229-255 | after onSocketState the watch of that socket waits for what was asked, is there if anything was asked and memory sufficed, and no other watch that waits for something has changed or gone |
| `CaresRuns.ExecDestroys` | src/cares_adapter.zig:95-103 | the adapter is shutting down exactly if a shutdown was among the callbacks of the execution |
| `CaresRuns.Exec` | src/cares_adapter.zig:229-293 | every sequence of events that can happen leads to a state at rest; submitting a completion that is held or being cancelled and freeing a watch the loop refers to are excluded by preconditions that hold at every use |
| `CaresRuns.Ready` | src/cares_adapter.zig:257-279 | a poll completion, with whatever c-ares calls back meanwhile, returns to a state at rest |
| `CaresRuns.Cancelled` | src/cares_adapter.zig:281-293 | a cancel completion returns to a state at rest |
| `CaresRuns.ScriptKeeps` | src/cares_adapter.zig:229-255 | any nest of socket changes inside a callback keeps the invariant for all watches but the running one |
| `CaresRuns.ProcessKeeps` | src/cares_adapter.zig:257-279 | the running watch survives whatever c-ares does inside its callback |
| `CaresSpec.UpdateSide` | src/cares_adapter.zig:172-211 | one half of updateWatch keeps flags and loop in agreement and serves exactly its direction |
| `CaresSpec.UpdateSettles` | src/cares_adapter.zig:172-211 | after updateWatch both directions of the watch are served |
| `CaresSpec.FreeKeeps` | src/cares_adapter.zig:213-222 | retiring an idle watch keeps the bijection of map and allocations, so the assertion on the removed entry holds |
| `CaresSpec.IdleIsUnheld` | src/cares_adapter.zig:213-222 | an idle watch has no completion in the loop |
| `CaresSpec.NestKeeps` | src/cares_adapter.zig:229-255 | onSocketState keeps the invariant, also during a shutdown and when memory runs out (what the watch then waits for is NestDirected) |
| `CaresAdapter.Adapter.UpdateRead` | src/cares_adapter.zig:172-191 | the read half of updateWatch, over heap objects, equal to the function the theorems are about |
| `CaresAdapter.Adapter.UpdateWrite` | src/cares_adapter.zig:192-211 | the write half of updateWatch, over heap objects, equal to the function the theorems are about |
| `CaresAdapter.Adapter.MaybeRetire` | src/cares_adapter.zig:213-222 | maybeRetireWatch frees the watch exactly when it is idle, over heap objects, equal to the function the theorems are about |
| `CaresAdapter.Adapter.UpdateWatch` | src/cares_adapter.zig:172-211 | updateWatch, over heap objects, equal to the function the theorems are about |
| `CaresAdapter.Adapter.Track` | src/cares_adapter.zig:239-255 | a first socket change allocates a watch that waits for what was asked, and arms it, over heap objects, equal to the function the theorems are about |
| `CaresAdapter.Adapter.OnSocketState` | src/cares_adapter.zig:229-255 | onSocketState, with both allocation failures and the shutdown path; the watch waits for the directions asked for, for none during a shutdown, over heap objects, equal to the function the theorems are about |
| `CaresAdapter.Adapter.Callbacks` | src/cares_adapter.zig:229-255 | c-ares may call back any number of times inside one of its functions, over heap objects, equal to the function the theorems are about |
| `CaresAdapter.Adapter.OnReady` | src/cares_adapter.zig:257-279 | onReadReady and onWriteReady, over heap objects, equal to the function the theorems are about |
| `CaresAdapter.Adapter.OnCancelled` | src/cares_adapter.zig:281-293 | onReadCancelled and onWriteCancelled, over heap objects, equal to the function the theorems are about |
| `CaresAdapter.Adapter.DeinitAfterLoop` | src/cares_adapter.zig:105-111 | every remaining watch is destroyed exactly once |
| `Resolver.CalledBackOnce` | src/cares_adapter.zig:64-103 | every accepted query is called back exactly once and in order, whatever cancels, timers and failures come between; none is outstanding after shutdown |
| `Resolver.ToldExactlyWhen` | src/cares_adapter.zig:295-359 | a query that meets no failure of its own is told the addresses c-ares found, for all timers, if and only if no integration failure was pending or left over when it began |
| `Resolver.LeftoverFailure` | src/cares_adapter.zig:295-325 | the condition is needed: a failure whose timer fires between two queries makes the second report failure although its addresses were found |
| `Resolver.StepKeeps` | src/cares_adapter.zig:64-103 | each event keeps: query active, callback stored and one query outstanding are the same thing |
| `Resolver.FillAddresses` | src/cares_adapter.zig:336-351 | the two passes over the result list yield exactly its IPv4 addresses, in order |
| `Resolver.ListExact` | src/cares_adapter.zig:334-351 | the addresses told are the IPv4 results of c-ares, all of them and in its order, each with the port asked for |
| `Resolver.ClassifyExact` | src/cares_adapter.zig:325-359 | cancelled exactly if c-ares says cancelled or destroyed; addresses exactly if it succeeded, there was memory and a result is IPv4; failed otherwise |
| `Resolver.ReplyTells` | src/cares_adapter.zig:311-359 | over every execution, an answer of c-ares tells the outstanding query that it failed exactly if a failure is charged to it, and otherwise what the answer says with the port of that query |
| `Resolver.CancelTells` | src/cares_adapter.zig:89-103 | cancel and shutdown tell an outstanding query that it was cancelled, or that it failed if a failure is charged to it; the timer of a failure tells it that it failed; no other event tells it anything |
| `Resolver.Adapter.Begin` | src/cares_adapter.zig:64-86 | resolve is refused exactly while destroying or while a query is active |
| `Resolver.Adapter.Resolved` | src/cares_adapter.zig:311-359 | onResolved consumes the callback and classifies the answer |
| `Resolver.Adapter.Timer` | src/cares_adapter.zig:295-309 | a timer turns a pending integration failure into a forced one and cancels an active query |
| `TypedCall.ResponseOrder` | include/grpc_lite/cpp/typed_service.hpp:39-66 | for every interleaving of sections by any threads, the accepted commands are a prefix of initial metadata, messages, trailers, with at most one of the first and of the last |
| `TypedCall.NothingAfterTerminal` | include/grpc_lite/cpp/typed_service.hpp:131-145 | nothing is accepted after OnTerminal |
| `TypedCall.OrderedIsGrammar` | include/grpc_lite/cpp/typed_service.hpp:39-66 | the inductive order kept by each section is the flat grammar |
| `TypedCall.SendTracked` | include/grpc_lite/cpp/typed_service.hpp:48-56 | a Send is Ok exactly when its message joins the accepted ones, and clears `writable_` only when the transport blocks it |
| `TypedCall.FinishTracked` | include/grpc_lite/cpp/typed_service.hpp:58-66 | a Finish is Ok exactly when it is the one that finishes the call, with its own code |
| `TypedCall.FinishResponseMeans` | include/grpc_lite/cpp/typed_service.hpp:178-196 | a call FinishResponse finishes with OK has just had its response accepted; otherwise its code is the status given, 13 for a response that does not serialize, 8 for one the transport had no room for and 13 for any other refusal; an OK answer means that it finished the call |
| `TypedCall.RunTracked` | include/grpc_lite/cpp/typed_service.hpp:39-72 | the flags of the call always agree with the accepted commands |
| `TypedService.TypedCallState.EnsureInitialMetadata` | include/grpc_lite/cpp/typed_service.hpp:148-153 | sends initial metadata once; equal to the function the theorems are about |
| `TypedService.TypedCallState.SendInitialMetadata` | include/grpc_lite/cpp/typed_service.hpp:39-46 | Closed when over, InvalidState when already sent; equal to the function the theorems are about |
| `TypedService.TypedCallState.Send` | include/grpc_lite/cpp/typed_service.hpp:48-56 | Closed when over, metadata first, blocked sends clear `writable_`; equal to the function the theorems are about |
| `TypedService.TypedCallState.Finish` | include/grpc_lite/cpp/typed_service.hpp:58-66 | Closed when over, metadata first; equal to the function the theorems are about |
| `TypedService.TypedCallState.OnCancel` | include/grpc_lite/cpp/typed_service.hpp:120-129 | sets `cancelled_` and returns the observer to call; equal to the function the theorems are about |
| `TypedService.TypedCallState.OnTerminal` | include/grpc_lite/cpp/typed_service.hpp:131-145 | ends the call, drops the observers and returns the terminal one; equal to the function the theorems are about |
| `TypedService.TypedCallState.SetOnCancel` | include/grpc_lite/cpp/typed_service.hpp:83-91 | installs the observer, or asks for it to be called if the event is past; equal to the function the theorems are about |
| `TypedService.TypedCallState.SetOnTerminal` | include/grpc_lite/cpp/typed_service.hpp:92-100 | installs the observer, or asks for it to be called if the event is past; equal to the function the theorems are about |
| `TypedService.FinishResponse` | include/grpc_lite/cpp/typed_service.hpp:178-196 | the object form of FinishResponse, equal to the function of FinishResponseMeans |
| `RequestStream.RequestsConserved` | include/grpc_lite/cpp/typed_service.hpp:204-274 | for any transport and any readers: the requests taken and then the buffered one are the accepted requests, in order; and the Reads of each thread have returned, in order and once each, what it took, but for one still in its hands |
| `RequestStream.BackpressureHolds` | include/grpc_lite/cpp/typed_service.hpp:204-234 | with a transport that follows the pause protocol, the backpressure branch is never taken, no resume finds the transport not paused, and at most one reader owes a resume |
| `RequestStream.AtMostOneAfterEnd` | include/grpc_lite/cpp/typed_service.hpp:204-274 | for any transport: after the end, a rejection or the terminal event nothing is accepted and at most one more Read returns a request, exactly if one is buffered and read |
| `RequestStream.MessagesReceived` | include/grpc_lite/cpp/typed_service.hpp:204-234 | over every execution: a message handed over is refused with 13 into a full slot, 8 if it is too large and 3 if it does not parse, shuts the mailbox and finishes the call with that code; otherwise nothing on the wire changes |
| `RequestStream.AcceptedExactly` | include/grpc_lite/cpp/typed_service.hpp:204-234 | the accepted requests are exactly the parsed messages handed over while the mailbox was open and its slot empty, in order |
| `RequestStream.ReaderWakes` | include/grpc_lite/cpp/typed_service.hpp:256-264 | a waiting Read goes on exactly if a request is there or the stream is over in any way, and returns false exactly if there is none |
| `RequestStream.ResumeMeans` | include/grpc_lite/cpp/typed_service.hpp:267-273 | a Read fails to resume exactly on an answer other than Ok, Closed and Unavailable, and returns its request either way |
| `RequestStream.FailMeans` | include/grpc_lite/cpp/typed_service.hpp:269-272 | a Read that failed to resume finishes an open call with 13 |
| `RequestStream.StallsExactlyWhen` | src/server.zig:1479-1498 | with a polite transport a step stalls the stream if and only if it delivers a message the service cannot retain the call for, or fails to queue a resume, on an open call with nothing else to wake a reader |
| `RequestStream.StalledByAStep` | src/server.zig:1479-1498 | over every execution: a stream that does not flow was stalled by such a step; otherwise a waiting reader waits for a message that may still come or for another reader's resume |
| `RequestStream.DroppedMessageStalls` | include/grpc_lite/cpp/typed_service.hpp:695-702 | such a stall is reachable: a reader waits on an open call whose transport is paused for good |
| `RequestStream.StepExcludes` | src/server.zig:3449-3501 | may deliver, slot full and resume owed exclude each other after every step |
| `TypedService.TypedRequestStreamState.OnMessage` | include/grpc_lite/cpp/typed_service.hpp:204-234 | stores one parsable message or rejects, with the status of the reason; equal to the function the theorems are about |
| `TypedService.TypedRequestStreamState.TakeNext` | include/grpc_lite/cpp/typed_service.hpp:257-266 | the section of Read empties the slot; false only when the stream is over; equal to the function the theorems are about |
| `DispatchTheorems.WritesAreDelivered` | include/grpcpp/support/sync_stream.h:62-72 | over a whole handler, its Write calls are, in order, those that returned and at most one that has not; the messages the transport accepted are exactly those whose Write returned true, in order, once each |
| `DispatchTheorems.NoLostWakeup` | include/grpc_lite/cpp/typed_service.hpp:102-118 | if every on_writable finds its call, a writer that has to wait is owed on_writable, or it is in flight, or the call is closing and owed on_terminal |
| `DispatchTheorems.LostExactlyByDrop` | include/grpc_lite/cpp/typed_service.hpp:652-656 | a step loses a wakeup if and only if it delivers on_writable to a blocked, open call that the service fails to retain |
| `DispatchTheorems.DroppedWakeupStrands` | include/grpc_lite/cpp/typed_service.hpp:695-702 | such a loss is reachable and leaves a writer waiting with nothing owed |
| `DispatchTheorems.StartsAtMostOnce` | include/grpc_lite/cpp/sync_service.hpp:40-70 | however often and on however many threads the executor runs State::Run, the handler starts at most once; a refused or rejected call never starts; the gate is stopped only by a cancellation, the end of the call or a rejection |
| `DispatchTheorems.StoppedStaysStopped` | include/grpc_lite/cpp/sync_service.hpp:178-191 | once OnCancel or OnTerminal has returned with the handler not started it never starts, even if the event preceded the installation of the observers |
| `DispatchTheorems.OkIsOneResponse` | include/grpc_lite/cpp/sync_service.hpp:125-192 | unary and client-streaming: a trace that ends in OK is initial metadata, the response the handler returned together with OK on the thread that began it, trailers; the call was admitted and accepted by the executor and nothing failed, also with concurrent rejections by the reactor |
| `DispatchStatus.TrailersExplained` | include/grpc_lite/cpp/sync_service.hpp:120-346 | every call, streaming or not: the trailers carry the code of the admission that refused it, 8 for a rejection by the executor, the code of a rejected request or of a failed resume, 13 for a message that does not serialize, or what the handler returned, unless something failed after it: then 8 or 13; OK only ever comes from a handler that returned OK |
| `DispatchStatus.EndsExactlyWhen` | include/grpc_lite/cpp/typed_service.hpp:58-66 | trailers are sent exactly by the steps that finish the call, and exactly if it is not over and the transport accepts |
| `DispatchStatus.OkIsReturned` | include/grpc_lite/cpp/sync_service.hpp:142-168 | a call that ended with OK was closed by the thread that began its handler, after that handler returned OK |
| `DispatchStatus.FailsExactlyOn` | include/grpc_lite/cpp/sync_service.hpp:147-164 | after the handler something fails exactly if metadata or response cannot be set, serialized or sent; the code is 13, or 8 if the transport had no room for the response |
| `DispatchStatus.AnswersExactlyWhen` | include/grpc_lite/cpp/sync_service.hpp:142-168 | a task that has run its handler ends by closing the call, or in silence exactly if the call counts as cancelled right after the handler |
| `DispatchStatus.WriteReturns` | include/grpcpp/support/sync_stream.h:62-72 | Write returns true exactly when its message was serialized and accepted, and false exactly if the call counts as cancelled, the attempt failed for a reason other than lack of room, or the call was cancelled or over when the wait ended; otherwise it tries again |
| `DispatchStatus.RejectedExactlyWhen` | include/grpc_lite/cpp/sync_service.hpp:187-191 | a call counts as rejected exactly if the executor turned its task down |
| `DispatchStatus.StartsOnlyAdmitted` | include/grpc_lite/cpp/sync_service.hpp:125-131 | the handler starts only in a call whose admission said OK |
| `DispatchStatus.RunOwes` | include/grpc_lite/cpp/sync_service.hpp:120-192 | in every state, a thread that is to finish the call holds the status, and the response, of the last event that gave it one |
| `DispatchProofs.DispatchKeeps` | include/grpc_lite/cpp/sync_service.hpp:120-192 | each step of the dispatching thread keeps the invariant |
| `DispatchProofs.ReactKeeps` | include/grpc_lite/cpp/typed_service.hpp:109-145 | each callback and rejection of the reactor keeps the invariant |
| `DispatchProofs.WriteKeeps` | include/grpcpp/support/sync_stream.h:117-127 | each step of the Write loop keeps the invariant |
| `DispatchProofs.WorkKeeps` | include/grpc_lite/cpp/sync_service.hpp:278-346 | each step of State::Run keeps the invariant, its failure paths included (that it passes on the handler's status and response is RunOwes) |
| `DispatchProofs.RunKeeps` | include/grpc_lite/cpp/sync_service.hpp:120-346 | the invariant holds in every state of every execution |
| `TypedService.CallAdmissionGate.BeginStart` | include/grpc_lite/cpp/sync_service.hpp:42-47 | succeeds exactly from Queued |
| `TypedService.CallAdmissionGate.CommitStart` | include/grpc_lite/cpp/sync_service.hpp:49-54 | succeeds exactly from Starting |
| `TypedService.CallAdmissionGate.Stop` | include/grpc_lite/cpp/sync_service.hpp:56-65 | the compare-exchange loop is linearizable: for any moves of other threads and any spurious failures it ends as the atomic Stop would at one point among them |
| `Registry.RegistryExact` | include/grpc_lite/cpp/typed_service.hpp:596-676 | for every event sequence over any calls: the registry holds exactly the calls started and not ended since, each in the state its own callbacks alone lead to |
| `Registry.EndsReached` | include/grpc_lite/cpp/typed_service.hpp:664-676 | OnTerminal reaches exactly the registered calls whose end is reported |
| `Registry.EndsAtMostOnce` | include/grpc_lite/cpp/typed_service.hpp:664-676 | a call is ended no more often than it is started, and never while it is registered |
| `Registry.DispatchedExactlyWhen` | include/grpc_lite/cpp/typed_service.hpp:523-572 | a single-request call dispatches once if exactly one message preceded the remote end and it is parsable and within INT_MAX, and never otherwise (how it is refused then is RefusedExactlyWhen) |
| `Registry.RunsExactlyWhen` | include/grpc_lite/cpp/typed_service.hpp:628-650 | the handler runs exactly on the request dispatched, and exactly if one was installed when the remote end came |
| `Registry.HandlerRunsExactlyWhen` | include/grpc_lite/cpp/typed_service.hpp:628-650 | over any event sequence and whatever the other calls do: a registered call has dispatched exactly the request its own callbacks call for, and its handler has run on it exactly if one was installed |
| `Refusals.RefusedExactlyWhen` | include/grpc_lite/cpp/typed_service.hpp:523-572 | told from the callbacks of a call alone: a single-request call is refused with 3 for a second message, 8 for a first one too large, 3 for one that does not parse, 3 for an end without a request and 14 for an end without a handler; an unread request stream with 14, 13, 8 and 3; and the wire carries exactly the answer to these refusals |
| `Refusals.RefusedOnce` | include/grpc_lite/cpp/typed_service.hpp:523-572 | a single-request call is refused at most once; before that nothing is on the wire, and a refusal the transport takes leaves initial metadata and trailers with that code for good |
| `Refusals.StreamRefusedOnce` | include/grpc_lite/cpp/typed_service.hpp:204-234 | the first refusal of a request stream that the transport takes is its last word |
| `Refusals.CallsRefusedExactlyWhen` | include/grpc_lite/cpp/typed_service.hpp:596-676 | over any events of any calls, the wire of a registered call carries the answer to the refusals its own callbacks call for |
| `Refusals.EndedRefusedExactlyWhen` | include/grpc_lite/cpp/typed_service.hpp:664-676 | so does the wire of a call when it ends, and it is terminal then |
| `Registry.StreamHandlerOnce` | include/grpc_lite/cpp/typed_service.hpp:596-619 | the handler of a request stream starts once, at the start of the call, exactly if one is installed |
| `Registry.FlagsTold` | include/grpc_lite/cpp/typed_service.hpp:628-663 | a call knows of its cancellation, and a request stream of its end, exactly when its own callbacks reported them |
| `Registry.BoxTold` | include/grpc_lite/cpp/typed_service.hpp:204-234 | before the end and with no reader, a request stream holds the first message if it is usable and is rejected exactly when that fails or another comes |
| `TypedService.CallState.OnMessage` | include/grpc_lite/cpp/typed_service.hpp:523-558 | CallState::OnMessage over the object, equal to the function the theorems are about; refusals carry the codes of RefusedExactlyWhen |
| `TypedService.CallState.OnRemoteEnd` | include/grpc_lite/cpp/typed_service.hpp:560-572 | TakeRequest and the dispatch after it, equal to the function the theorems are about |
| `TypedService.Impl.OnStart` | include/grpc_lite/cpp/typed_service.hpp:596-619 | the callback over the map of call objects changes that call alone, as the registry function says |
| `TypedService.Impl.OnMessage` | include/grpc_lite/cpp/typed_service.hpp:621-627 | the callback over the map of call objects changes that call alone, as the registry function says |
| `TypedService.Impl.OnRemoteEnd` | include/grpc_lite/cpp/typed_service.hpp:628-650 | the callback over the map of call objects changes that call alone, as the registry function says |
| `TypedService.Impl.OnWritable` | include/grpc_lite/cpp/typed_service.hpp:652-656 | the callback over the map of call objects changes that call alone, as the registry function says |
| `TypedService.Impl.OnCancel` | include/grpc_lite/cpp/typed_service.hpp:657-663 | the callback over the map of call objects changes that call alone, as the registry function says |
| `TypedService.Impl.OnTerminal` | include/grpc_lite/cpp/typed_service.hpp:664-676 | the callback over the map of call objects changes that call alone, as the registry function says |
| `BoundedExecutor.OneOutstanding` | examples/cpp_bounded_executor/main.cc:69-115 | every accepted call is released, in the slot or in the worker's hand, never with its submitter; at most one is outstanding, and none when the executor is not busy |
| `BoundedExecutor.WorkedOnce` | examples/cpp_bounded_executor/main.cc:88-115 | accepted calls are worked on at most once each, in order, and released only after that |
| `BoundedExecutor.AdmittedAfterRelease` | examples/cpp_bounded_executor/main.cc:69-76 | a call is admitted only when all earlier ones have been released |
| `BoundedExecutor.AcceptedExactlyWhen` | examples/cpp_bounded_executor/main.cc:69-76 | a submission is accepted exactly if it meets no contention, the executor was never closed and its one place is free, told from the events alone |
| `BoundedExecutor.BusyExactlyWhen` | examples/cpp_bounded_executor/main.cc:69-115 | the place is taken exactly from an accepted submission until the worker reopens |
| `BoundedExecutor.NothingAfterClose` | examples/cpp_bounded_executor/main.cc:77-81 | nothing is accepted after Close |
| `BoundedExecutor.ExitLeavesNothing` | examples/cpp_bounded_executor/main.cc:82-94 | when the worker exits every accepted call has been worked on and released, and nothing is accepted from then on |
| `BoundedExecutor.StepOwned` | examples/cpp_bounded_executor/main.cc:69-115 | every event keeps the one-owner invariant |
| `BoundedExecutor.Object.TrySubmit` | examples/cpp_bounded_executor/main.cc:69-76 | accepts exactly when the mutex is free and the executor is neither closed nor busy |
| `BoundedExecutor.Object.TakeCall` | examples/cpp_bounded_executor/main.cc:93-96 | the worker takes the slot or is told to exit |
| `EchoRuns.EchoesInOrder` | benchmarks/server.zig:122-138 | per stream, in every state: what was sent is a prefix of what was received, and while the stream is registered only the message set aside is missing; OK is sent at most once and only when the end has come and everything was echoed |
| `EchoRuns.MessageAnswered` | benchmarks/server.zig:122-138 | a message is echoed exactly if it goes through, plain if the peer cannot take gzip; without room it is set aside and reception pauses; in any other case the stream is given up |
| `EchoRuns.EndAnswered` | benchmarks/server.zig:196-200 | when the end comes and everything has been echoed, OK is sent, exactly if the transport takes it |
| `EchoRuns.RoomAnswered` | benchmarks/server.zig:220-264 | with room again the message set aside is sent exactly if it goes through; then OK follows if the end has come and reception resumes if not |
| `EchoRuns.StartAnswered` | benchmarks/server.zig:92-106 | a stream is registered exactly if both allocations succeed |
| `EchoRuns.NothingLeaks` | benchmarks/server.zig:284-305 | the live heap objects are exactly the registered states and the buffers set aside; nothing is freed twice; deinit frees the rest |
| `EchoRuns.DeadErrors` | benchmarks/server.zig:104-105 | DuplicateStream and PendingTypeMismatch cannot happen |
| `EchoRuns.StepKeeps` | benchmarks/server.zig:122-305 | every callback keeps the invariant of every stream |
| `EchoSpec.MessageKeepsExactlyWhen` | benchmarks/server.zig:122-138 | a message keeps the heap ledger if and only if it is not set aside over another one |
| `EchoSpec.RemoveKeeps` | benchmarks/server.zig:295-305 | removing a stream frees exactly its objects |
| `EchoSpec.WritableKeeps` | benchmarks/server.zig:220-264 | on_writable keeps the ledger on the success, retry and failure paths |
| `EchoSpec.DeinitFreesAll` | benchmarks/server.zig:49-54 | after deinit every object ever allocated has been freed exactly once |
| `EchoService.Service.StartStream` | benchmarks/server.zig:92-106 | startStream, with both allocation failures and the duplicate, over heap objects, equal to the function the theorems are about |
| `EchoService.Service.HandleMessage` | benchmarks/server.zig:122-138 | the message handlers with the removal on error, over heap objects, equal to the function the theorems are about |
| `EchoService.Service.HandleRemoteEnd` | benchmarks/server.zig:196-200 | handleRemoteEnd with the removal on error, over heap objects, equal to the function the theorems are about |
| `EchoService.Service.HandleWritable` | benchmarks/server.zig:220-249 | the writable handlers with failContinuation, over heap objects, equal to the function the theorems are about |
| `EchoService.Service.PendingDrained` | benchmarks/server.zig:251-264 | pendingDrained, over heap objects, equal to the function the theorems are about |
| `EchoService.Service.RemoveState` | benchmarks/server.zig:295-305 | removeState and destroyState, over heap objects, equal to the function the theorems are about |
| `EchoService.Service.Deinit` | benchmarks/server.zig:49-54 | destroys every registered state and leaves nothing allocated |
| `Percentile.WeightedPercentile` | benchmarks/client.zig:992-1003 | the two loops compute the specified percentile |
| `Percentile.LeastReaching` | benchmarks/client.zig:992-1003 | on sorted samples the result is the least sample value at which the samples up to it, in whatever order, weigh at least the given percentage |
| `Percentile.Monotone` | benchmarks/client.zig:992-1003 | higher percentiles are not smaller |
| `Percentile.IsNearestRank` | benchmarks/client.zig:992-1003 | for whole weights the result is the nearest-rank percentile of the expanded list |
| `Latency.RunSummarises` | benchmarks/client.zig:127-153 | whatever a worker records, its count and extrema are exact and its reservoir is complete or full and drawn from the recorded latencies without repetition |
| `Latency.RecordSummarises` | benchmarks/client.zig:139-153 | one exchange extends the summary exactly if it is measured and valid, whatever slot the generator picks |
| `Latency.ReservoirExact` | benchmarks/client.zig:127-137 | each place of the reservoir holds the last latency that drew it once the reservoir was full, or else the one that first filled it |
| `Latency.MergeExact` | benchmarks/client.zig:155-183 | merging keeps count, minimum and maximum exact over all latencies of all workers |
| `Latency.MergeSums` | benchmarks/client.zig:155-183 | merging adds up both error counts and strings the samples of all workers together, each weighted with its share of the latencies of its worker |
| `Latency.WeightIsCount` | benchmarks/client.zig:155-183 | the total weight after merging is the total eligible count if and only if the reservoirs have room or nothing was recorded |
| `Latency.MergeWeight` | benchmarks/client.zig:174-182 | a shard adds its whole eligible count in weight unless it kept no sample or there is no room for its samples |
| `Latency.Slot` | benchmarks/client.zig:1005-1010 | the generator picks a slot below the count |
| `Latency.Measurements.AddLatency` | benchmarks/client.zig:127-137 | addLatency, equal to the function the theorems are about |
| `Latency.Measurements.RecordExchange` | benchmarks/client.zig:139-153 | recordExchange, equal to the function the theorems are about |
| `Latency.Measurements.MergeShard` | benchmarks/client.zig:155-183 | mergeShard, its failing allocation included, equal to the function the theorems are about |
| `StreamWindow.EachInOnePlace` | benchmarks/client.zig:313-428 | through any mix of events timestamps complete in the order they were accepted, and each one created is in exactly one of completed, in flight, pending or dropped; a pending one always has room |
| `StreamTimes.LatenciesExact` | benchmarks/client.zig:351-428 | through any mix of events, the i-th response that finds a request in flight completes the i-th request sent; its stamp has the clock and the flag of the turn that created it, its latency is the time from then to the response or 0 if the clock ran back, and it is valid exactly if the response is |
| `StreamTimes.RunAgrees` | benchmarks/client.zig:313-428 | requests in flight, the pending one, every creation, the order of sends and every completion are what counting the events alone says |
| `StreamTimes.FailuresExact` | benchmarks/client.zig:351-434 | a stream fails exactly if a send is refused while it is not being closed, and is cancelled for that, for a response nobody waits for and for an invalid one; the error count is that of the measured failed sends and invalid exchanges |
| `StreamWindow.MeasuredExactly` | benchmarks/client.zig:405-434 | through any mix of events the measurements have the exact count and extrema of the latencies of the valid measured exchanges completed (what these are is LatenciesExact), samples drawn from these alone, and an error for each invalid measured exchange and each measured send that failed |
| `StreamWindow.RunSound` | benchmarks/client.zig:313-428 | the three laws hold after every sequence of events |
| `StreamWindow.FillSound` | benchmarks/client.zig:351-369 | the refill loop keeps the laws for any clock and any answers |
| `StreamWindow.WritableSound` | benchmarks/client.zig:371-386 | onWritable keeps the laws |
| `StreamWindow.ResponseSound` | benchmarks/client.zig:405-428 | onResponse keeps the laws (which response completes which request, and its latency, is LatenciesExact) |
| `StreamWindow.Saturated` | benchmarks/client.zig:418-419 | latency is the difference, or zero if the clock went back |
| `StreamRing.StreamState.SendReserved` | benchmarks/client.zig:321-335 | the ring is the abstract window; a failed send restores head, tail and count; the assertion on free room is the precondition, met by every caller |
| `StreamRing.StreamState.Bootstrap` | benchmarks/client.zig:313-319 | the first send, over the ring, equal to the function the laws are about |
| `StreamRing.StreamState.Refill` | benchmarks/client.zig:351-369 | the refill loop, over the ring, equal to the function the laws are about |
| `StreamRing.StreamState.OnWritable` | benchmarks/client.zig:371-386 | onWritable; a pending timestamp meets the assertion because it has room, over the ring, equal to the function the laws are about |
| `StreamRing.StreamState.OnResponse` | benchmarks/client.zig:405-428 | onResponse, the exchange recorded in the measurements object, over the ring, equal to the function the laws are about |

## Left out

- nghttp2, libxev, c-ares, the C ABI and the reactors of `src/channel.zig` and `src/server.zig` are only present as the nondeterministic environment described above.
- Progress: that an owed notification arrives, that a spurious compare-exchange failure stops recurring and that a re-issued cancel completes is not stated; what is stated is that it is owed.
- C++ memory orders: atomics are sequentially consistent.
- Metadata contents, compression and message texts: carried by the code without deciding anything; texts are an enumeration.
- Deadline conversion in `long double`: floating point.
- Latency.Measurements.AddLatency: counters are unbounded; the count is required to stay below the 64-bit limit, which the original does not check.
- Percentile.WeightedPercentile: weights are reals, so the fallback to the last sample that guards against f64 rounding is reached only above 100 percent.
- ClientReader, ClientWriter and ClientReaderWriter: their status bookkeeping adds easy members over the client call.
- TypedCallState::SetOnWritable and the asynchronous handler style: the same pattern as SetOnCancel.
- TypedService.Impl: models the registration of single-request methods over objects; the streaming one is covered by the functions of `Registry` only.
- BoundedExecutor.Object.TakeCall: takes one step under the lock; the response the worker sends is only an outcome in the history.
- Dispatch of bidirectional streaming: the same steps as server streaming, with the request stream proved separately; admission policies and executors are arguments.
- StreamRing.StreamState.OnResponse: requires the count of measured exchanges to stay below the 64-bit limit, which the original does not check.
- BlockingCall.BlockingCallState.CallUnary: starts with an open channel and non-null arguments; the checks before that return an error and touch nothing.
- The timer arithmetic and socket processing of the c-ares adapter, the server drain, admission budgets, argument parsing, JSON output, Python tools, Go peers and build files: I/O and glue.
