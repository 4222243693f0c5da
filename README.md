# asio2exec bridge, modelled in Dafny

asio2exec turns an Asio "initiate with a completion handler" operation into a
stdexec sender. This project models the logic of that bridge in
`asio2exec.hpp` and proves properties of the model:

- `SboBuffer` (`sbo_buffer.dfy`): `__sbo_buffer`, the one-slot inline arena
  behind a `memory_resource`. It is a class with the `_used` flag and an
  abstract log of upstream calls. Pure functions state what `do_allocate` and
  `do_deallocate` do. Lemmas over arbitrary request sequences show that at
  most one inline allocation is ever live, and that allocate/deallocate
  cycles within capacity never reach the upstream resource.
- `OperationBase` (`operation_base.dfy`): how a result reaches the receiver.
  Each of `__value`, `__stop` and `__error` posts to `_ctx` when it is set and
  completes inline otherwise. `complete` routes an `operation_aborted` first
  argument to the stopped channel and every other result to the value
  channel.
- `Operation` (`operation.dfy`): the cancellable operation state
  (`__operation`) as a class. Its fields are the atomic state, the stop
  callback registration, the log of `_signal.emit` calls, the number of
  `__init` calls, `_err`, `_res` and the log of deliveries to the receiver.
  The same class covers the two kinds without cancellation. The stop request
  is delivered at a chosen `Landing`, one of the points in `start` and after
  it. `Interleave` runs one `start`, one stop request and the Asio completion.
  It is proved against a reference specification of the protocol
  (`Emissions`, `InitInvoked`, `Outcome`), for every landing and every
  `__init` outcome. Lemmas then show that the cancellation signal is emitted
  at most once, when it is emitted exactly once, and by whom.
- `Scheduler` (`scheduler.dfy`): `start` of the schedule sender's operation.
- `Connect` (`connect.dfy`): the two `connect` overloads. They choose the
  operation kind and the completion context (`nullptr` or the scheduler's
  context). `ConnectAndRun` chains `connect` with a run of the operation.
- `Asio` (`asio.dfy`): opaque values shared by the modules: context
  identities, executors, error codes, cancellation types and exceptions.

The Asio and stdexec calls are abstract. `io_context::post` and the inline
completion become entries of the delivery log, `cancellation_signal::emit`
becomes an entry of the signal log, and the upstream resource becomes its
call log. Stop-callback registration runs the callback at once when the
token is already stopped. A request to stop runs a registered callback. Each
compare-and-swap is one atomic step. The weak compare-and-swap retry loop of
the stop callback is modelled by its net effect, an exchange with `stopped`.
A throwing `__init` is the `Threw` outcome, and the initiation and its
arguments are opaque.

Facts about the code that the model keeps:
- `connect` compares the scheduler's executor with the initiation's
  associated executor using `==`, not context pointers.
- Every scheduler that is not `scheduler_t` goes through `transfer`.
- Nobody emits the cancellation signal when the stop lands before the
  `emplaced` state, when the initiation throws, or when no stop arrives. The
  protocol guarantees one emitter or none.
- The initiation and its arguments are held in `std::tuple`s
  (asio2exec.hpp:286, 292) and are opaque here.
- Both `__init` overloads are `noexcept`, so an exception from the
  initiation ends the process. The `catch` blocks in the three `start`
  functions therefore never run (see "## Findings"). The class keeps both
  behaviors through its `initNoexcept` flag, and so does
  `Connect.ConnectAndRun`.

## Model

| member | source | states |
|---|---|---|
| SboBuffer.Allocated | asio2exec.hpp:109-120 | returns the inline storage and marks the slot used iff the slot is free, `bytes <= Size` and `alignment <= Alignment`; otherwise it forwards one upstream allocate call and leaves `_used` unchanged; a non-fitting request with no upstream resource is excluded (the `assert` in `do_allocate`, asio2exec.hpp:114) |
| SboBuffer.Deallocated | asio2exec.hpp:122-129 | the inline address clears `_used` and makes no upstream call; any other pointer is forwarded upstream with its size and alignment and leaves `_used` unchanged |
| SboBuffer.Buffer.constructor | asio2exec.hpp:99-101 | a new buffer has a free slot and has made no upstream call |
| SboBuffer.Buffer.DoAllocate | asio2exec.hpp:109-120 | the new `_used` flag, upstream log and returned pointer are those of `Allocated` on the old state |
| SboBuffer.Buffer.DoDeallocate | asio2exec.hpp:122-129 | the new `_used` flag and upstream log are those of `Deallocated` on the old state |
| SboBuffer.Buffer.DoIsEqual | asio2exec.hpp:131-133 | two memory resources compare equal iff they are the same object |
| SboBuffer.AtMostOneInlineLive | asio2exec.hpp:109-129 | over any sequence of allocations and frees of held pointers, the client holds the inline address exactly when `_used` is set, so at most one inline allocation is live |
| SboBuffer.CyclesWithinCapacityStayInline | asio2exec.hpp:109-129 | any number of sequential allocate/deallocate cycles within capacity, from a free slot, leave the slot free and add no upstream call, even with no upstream resource |
| Scheduler.ScheduleStart | asio2exec.hpp:196-221 | a stoppable token that is already stopped completes stopped inline and posts nothing; otherwise one task is posted that completes with `set_value()` on the context, or a throwing post completes with its exception inline; a never-stoppable token is not checked |
| OperationBase.Route | asio2exec.hpp:333-367 | each channel keeps its signal; it is posted to `_ctx` iff `_ctx` is non-null and is delivered inline otherwise |
| OperationBase.CompletionSignal | asio2exec.hpp:386-398 | stopped iff the result has a first element that is an `error_code` equal to `operation_aborted`; every other result, the zero-argument one included, goes to the value channel with the whole tuple; `complete` never picks the error channel |
| Operation.SignalEmittedAtMostOnce | asio2exec.hpp:415-426 | the protocol emits the cancellation signal at most once, always of type `total` |
| Operation.SignalEmittedOnceIff | asio2exec.hpp:456-492 | the signal is emitted exactly when the stop lands after the state reached `emplaced` (during or after `__init`, or after `start`), before `complete`, and `__init` did not throw |
| Operation.EmitterIsDeterminedByLanding | asio2exec.hpp:483-490 | the callback emits iff it replaced `initiated` (stop after `start`, with `__init` launched); `start` emits iff the stop landed in state `emplaced` (during `__init` or after it returned, before the `emplaced` -> `initiated` step) and `__init` launched the operation, so that step failed |
| Operation.EarlyStopSkipsInit | asio2exec.hpp:458-472 | a stop before the `construction` -> `emplaced` step completes stopped; `__init` is not invoked and nothing is emitted |
| Operation.InitFailureIsAnError | asio2exec.hpp:474-481 | in the intended run, where the exception reaches the `catch`, a throwing initiation gives the receiver `set_error` with that exception, and nothing is emitted |
| Operation.ThrowingInitTerminatesAsWritten | asio2exec.hpp:432 | as written, a throwing initiation inside the `noexcept` `__init` ends the process with no signal for the receiver, which differs from the intended `set_error`; without a throw, the as-written and intended runs agree |
| Operation.LateStopIsNoOp | asio2exec.hpp:450-454 | a stop after `complete` neither emits nor changes the outcome, because `complete` deregistered the callback |
| Operation.HonouredCancellationIsStopped | asio2exec.hpp:386-398 | when the signal was emitted and the Asio operation completes with `operation_aborted`, the receiver sees `set_stopped` |
| Operation.Operation.constructor | asio2exec.hpp:404-413 | a new operation is in state `construction`, with no callback, no emission, no `__init` call, no result, no delivery and no termination |
| Operation.Operation.StopCallback | asio2exec.hpp:415-426 | afterwards the state is `stopped`, whatever it was; it emits `total` iff the state it replaced was `initiated` |
| Operation.Operation.RequestStop | asio2exec.hpp:428-430 | the stop token becomes stopped; a registered callback runs once; a repeated request or one with no callback registered changes nothing else |
| Operation.Operation.RegisterStopCallback | asio2exec.hpp:464 | the callback is registered; on a token already stopped it runs at once |
| Operation.Operation.DeregisterStopCallback | asio2exec.hpp:469 | afterwards no callback is registered |
| Operation.Operation.ValueChannel | asio2exec.hpp:333-345 | appends the value signal carrying the stored tuple (empty for a zero-argument completion), routed by `_ctx` |
| Operation.Operation.StopChannel | asio2exec.hpp:347-356 | appends the stopped signal, routed by `_ctx` |
| Operation.Operation.ErrorChannel | asio2exec.hpp:358-367 | appends the error signal carrying `_err`, routed by `_ctx` |
| Operation.Operation.BaseComplete | asio2exec.hpp:386-398 | stores a non-empty result in `_res` and appends the delivery of `CompletionSignal`; for the cancellable kind it runs only after the callback was deregistered |
| Operation.Operation.Complete | asio2exec.hpp:450-454 | the cancellable kind deregisters the stop callback first; then exactly one delivery, of `CompletionSignal(args)`, is made |
| Operation.Operation.Start | asio2exec.hpp:456-492 | for each landing of the stop request and each initiation outcome: the number of `__init` calls, the new state, the callback registration, `_err`, the emissions and the delivery made by `start`, and whether the process terminated. A throw terminates inside the `noexcept` `__init` (asio2exec.hpp:432) with no delivery; with `initNoexcept` false it reaches the `catch` instead |
| Operation.Operation.StartWithoutCancellation | asio2exec.hpp:519-528 | `__init` runs once. As written, a throw terminates inside the `noexcept` `__init` (asio2exec.hpp:371) with no delivery. With `initNoexcept` false, a throw stores the exception in `_err` and fires the error channel. Otherwise nothing is delivered yet. The same holds for `__asio_op_without_cancellation`, asio2exec.hpp:555-563 |
| Operation.Interleave | asio2exec.hpp:415-492 | for every landing of one stop request and every initiation outcome, the signals emitted are exactly `Emissions` and `__init` runs iff `InitInvoked`. As written (`OutcomeAsWritten`), the receiver gets one delivery unless a throwing initiation terminated the process. In the intended variant it always gets one delivery, of `Outcome`. Unless the process terminated, no callback is left registered. A never-stoppable token sees no stop |
| Connect.TransferConnect | asio2exec.hpp:531-546 | the transfer sender's operation has no context, and is without cancellation iff the token is never-stoppable |
| Connect.ConnectSender | asio2exec.hpp:566-602 | on `scheduler_t` the operation is direct, with a null `_ctx` iff the scheduler's executor equals the initiation's associated executor and the scheduler's context otherwise, and without cancellation iff the token is never-stoppable; any other scheduler goes through `transfer` |
| Connect.AffinityRouting | asio2exec.hpp:572-589 | on `scheduler_t` every completion is delivered inline when the executors are equal and posted once to the scheduler's context when they differ |
| Connect.ConnectAndRun | asio2exec.hpp:566-602 | after `connect` and one run, as written or in the intended variant, the deliveries are those of `RunOutcome`; the intended variant makes exactly one. A delivery is posted iff the executors differ (on `scheduler_t`) and is inline into `transfer` otherwise |

## Findings

| source | as written | input that shows it | evidently intended | confidence | as-written member | corrected member |
|---|---|---|---|---|---|---|
| asio2exec.hpp:432 (and 371) | `__init` is `noexcept`, so an exception thrown by the initiation calls `std::terminate`; the `catch` blocks at asio2exec.hpp:476-481, 524-527 and 559-562 never run | an initiation that throws, for instance when allocating its operation fails, with no stop request | the exception reaches the `catch`: `_err` holds it and the receiver gets `set_error`, with no cancellation emitted | high, not executed | Operation.ThrowingInitTerminatesAsWritten | Operation.InitFailureIsAnError |

## Left out

- `asio_context` (asio2exec.hpp:27-64) owns an `io_context`, a work guard and a thread. It is only I/O and thread plumbing, so a context is known here only by its identity.
- Asio and stdexec themselves: `post`, `cancellation_signal::emit`, `get_associated_executor`, `transfer`, the stop-token callback machinery and the receiver. Each is an abstract event: an entry of a log, a parameter, or a field set by the environment (`stopRequested`).
- Memory orders and the spurious failures of `compare_exchange_weak`: each compare-and-swap is one atomic step.
- C++ exceptions and `std::exception_ptr` are opaque tokens. A throwing initiation or `post` is a parameter of the run. `std::terminate` is a `terminated` flag, and the model says nothing about what happens after it.
- The upstream resource never fails here: its `allocate` always returns a new block. The `std::bad_alloc` it may throw, which leaves `_used` unchanged and propagates out of `do_allocate`, appears only as the `Threw` and `PostThrew` outcomes of the initiation and of `post`.
- The completion tasks and the Asio handler take `_buf` as their allocator. The model does not connect the deliveries to the buffer, whose behaviour is modelled on its own.
- Stops racing with `complete`: only one stop request is modelled, landing before, during or after `start`, or after `complete`. A `complete` that runs on the I/O thread while `start` is still between `__init` and its last step is not interleaved.
- For the transfer path, the stop token of `transfer`'s inner receiver is taken to be of the same kind as the outer receiver's.
- The commented-out `executor_with_default` (asio2exec.hpp:67-90), the unused `__get_args_size` (asio2exec.hpp:264-269), `initiate`, the `tag_invoke` completion-signature and environment boilerplate, and the Asio dispatch plumbing in `initiate_dispatch.hpp` are type-level glue or dead code.
- `main.cpp` and the `examples/` programs are demonstrations over timers, sockets and signals with no logic of their own.
- Operation.Operation.Complete: requires that the operation is pending and holds no result. This is Asio's promise to call the handler exactly once, after a launched `__init`. `__operation::complete` does not check it.
