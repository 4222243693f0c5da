/** The bridged operation state (`__operation` and its two variants without
    cancellation).

    The cancellable operation keeps an atomic state, `construction`,
    `emplaced`, `initiated` or `stopped`. `start` drives
    construction -> emplaced -> initiated by compare-and-swap; the stop
    callback forces the state to `stopped` and emits the Asio cancellation
    signal itself only when it replaced `initiated`. When it replaced
    `emplaced`, the failed emplaced -> initiated step in `start` emits it
    instead, so exactly one party forwards the cancellation, or none.

    Each compare-and-swap is one atomic step. One stop request is delivered
    at a chosen `Landing`: `Start` takes it as a parameter and delivers it at
    that point of its own sequence, which covers every interleaving of one
    `start` with one stop request. */
module Operation {
  import opened Asio
  import opened OperationBase

  datatype State = Construction | Emplaced | Initiated | Stopped

  /** Who called `_signal.emit`. */
  datatype Party = StartSide | CallbackSide

  datatype Emission = Emission(kind: CancellationType, emitter: Party)

  /** The three operation-state types `connect` can build. */
  datatype OpKind = Cancellable | AsioWithoutCancellation | TransferWithoutCancellation

  /** What the initiation does when `__init` calls it: it launches the Asio
      operation, or throws before launching anything. */
  datatype InitOutcome = Launched | Threw(exception: Exception)

  /** Where the single stop request lands. */
  datatype Landing =
    | BeforeStart         // the token is already stopped when `start` checks it
    | BeforeRegistration  // after that check, before the callback is emplaced
    | BeforeEmplace       // callback registered, state still `construction`
    | DuringInit          // state `emplaced`, `__init` has not returned yet
    | AfterInit           // `__init` returned or threw, `start` has not gone on
    | AfterStart          // `start` returned, the Asio operation is pending
    | AfterComplete       // `complete` has run
    | NoStop

  /** The landings at which `start` is still running. */
  predicate DuringStart(l: Landing)
  {
    l in {BeforeStart, BeforeRegistration, BeforeEmplace, DuringInit, AfterInit}
  }

  /** The landings at which the stop wins before `__init` is ever called. */
  predicate BeforeInitiation(l: Landing)
  {
    l in {BeforeStart, BeforeRegistration, BeforeEmplace}
  }

  /** The state the stop callback replaces, or None when the callback does
      not run: the fast path registers none, and both error paths and
      `complete` deregister it. */
  function SeenByCallback(l: Landing, init: InitOutcome): Option<State>
  {
    match l
    case BeforeStart => None
    case BeforeRegistration => Some(Construction)
    case BeforeEmplace => Some(Construction)
    case DuringInit => Some(Emplaced)
    case AfterInit => Some(Emplaced)
    case AfterStart => if init.Launched? then Some(Initiated) else None
    case AfterComplete => None
    case NoStop => None
  }

  /** The protocol's promise about the cancellation signal: the callback
      emits when it replaced `initiated`; `start` emits when the callback
      replaced `emplaced` and `__init` launched the operation; nobody emits
      otherwise. */
  function Emissions(l: Landing, init: InitOutcome): seq<Emission>
  {
    if SeenByCallback(l, init) == Some(Initiated) then [Emission(Total, CallbackSide)]
    else if SeenByCallback(l, init) == Some(Emplaced) && init.Launched? then [Emission(Total, StartSide)]
    else []
  }

  /** Whether `__init` runs: unless the stop is seen before the
      construction -> emplaced step. */
  predicate InitInvoked(l: Landing, init: InitOutcome)
  {
    l != BeforeStart && SeenByCallback(l, init) != Some(Construction)
  }

  /** The one signal the receiver gets, given the arguments the Asio
      operation completes with when it was launched. */
  function Outcome(l: Landing, init: InitOutcome, args: seq<Arg>): Signal
  {
    if !InitInvoked(l, init) then SetStopped
    else if init.Threw? then SetError(init.exception)
    else CompletionSignal(args)
  }

  /** How one run ends: one signal for the receiver, or `std::terminate`. */
  datatype RunResult = Delivered(signal: Signal) | Terminated

  /** The run as the code is written. Both `__init` overloads are
      `noexcept`, so an exception from the initiation terminates the process
      inside `__init`, and the `catch` after it in `start` never runs. */
  function OutcomeAsWritten(l: Landing, init: InitOutcome, args: seq<Arg>): RunResult
  {
    if !InitInvoked(l, init) then Delivered(SetStopped)
    else if init.Threw? then Terminated
    else Delivered(CompletionSignal(args))
  }

  /** The run of an operation whose `__init` is `noexcept` (as written) or
      lets the exception reach `start` (as the `catch` blocks intend). */
  function RunOutcome(initNoexcept: bool, l: Landing, init: InitOutcome, args: seq<Arg>): RunResult
  {
    if initNoexcept then OutcomeAsWritten(l, init, args) else Delivered(Outcome(l, init, args))
  }

  /** The deliveries a run leaves: one, or none when the process ended. */
  function DeliveriesOf(ctx: Option<ContextId>, r: RunResult): seq<Delivery>
  {
    match r
    case Delivered(sig) => [Route(ctx, sig)]
    case Terminated => []
  }

  /** A never-stoppable token receives no stop request. */
  function EffectiveLanding(kind: OpKind, l: Landing): Landing
  {
    if kind == Cancellable then l else NoStop
  }

  lemma SignalEmittedAtMostOnce(l: Landing, init: InitOutcome)
    ensures |Emissions(l, init)| <= 1
    ensures forall e | e in Emissions(l, init) :: e.kind == Total
  {
  }

  /** The signal is emitted exactly when the stop lands after the state
      reached `emplaced`, before `complete`, and `__init` did not throw. */
  lemma SignalEmittedOnceIff(l: Landing, init: InitOutcome)
    ensures |Emissions(l, init)| == 1 <==> l in {DuringInit, AfterInit, AfterStart} && init.Launched?
  {
  }

  /** The callback emits only when the stop arrives after `start` returned.
      `start` is the emitter when the stop lands in state `emplaced` (while
      `__init` runs, or after it returned but before the `emplaced` ->
      `initiated` step) and `__init` launched the operation. */
  lemma EmitterIsDeterminedByLanding(l: Landing, init: InitOutcome)
    ensures Emission(Total, CallbackSide) in Emissions(l, init) <==> l == AfterStart && init.Launched?
    ensures Emission(Total, StartSide) in Emissions(l, init) <==> l in {DuringInit, AfterInit} && init.Launched?
  {
  }

  /** A stop before the construction -> emplaced step: stopped, and
      `__init` never runs. */
  lemma EarlyStopSkipsInit(l: Landing, init: InitOutcome, args: seq<Arg>)
    requires BeforeInitiation(l)
    ensures !InitInvoked(l, init) && Outcome(l, init, args) == SetStopped
    ensures Emissions(l, init) == []
  {
  }

  /** With the exception reaching the `catch` in `start`, as intended, a
      throwing initiation completes with its exception and nobody emits. */
  lemma InitFailureIsAnError(l: Landing, e: Exception, args: seq<Arg>)
    requires !BeforeInitiation(l)
    ensures Outcome(l, Threw(e), args) == SetError(e)
    ensures Emissions(l, Threw(e)) == []
  {
  }

  /** As written, a throwing initiation ends the process with no signal for
      the receiver, where the intended run delivers `set_error`. Without a
      throw both agree. */
  lemma ThrowingInitTerminatesAsWritten(l: Landing, e: Exception, args: seq<Arg>)
    requires !BeforeInitiation(l)
    ensures OutcomeAsWritten(l, Threw(e), args) == Terminated
    ensures OutcomeAsWritten(l, Threw(e), args) != Delivered(Outcome(l, Threw(e), args))
    ensures OutcomeAsWritten(l, Launched, args) == Delivered(Outcome(l, Launched, args))
  {
  }

  /** A stop after `complete` changes nothing. */
  lemma LateStopIsNoOp(init: InitOutcome, args: seq<Arg>)
    ensures Emissions(AfterComplete, init) == Emissions(NoStop, init) == []
    ensures Outcome(AfterComplete, init, args) == Outcome(NoStop, init, args)
  {
  }

  /** When the Asio operation honours the emitted signal by completing with
      `operation_aborted`, the receiver sees the stopped channel. */
  lemma HonouredCancellationIsStopped(l: Landing, init: InitOutcome, rest: seq<Arg>)
    requires Emissions(l, init) != []
    ensures Outcome(l, init, [ErrorCodeArg(OperationAborted)] + rest) == SetStopped
  {
  }

  class Operation {
    const kind: OpKind
    /** `_ctx`: where completions are posted; None completes inline. */
    const ctx: Option<ContextId>
    /** Whether `__init` is `noexcept`, as written; false models the
        intended variant whose exception reaches the `catch` in `start`. */
    const initNoexcept: bool
    /** `_state`. */
    var state: State
    /** Whether `_stop_callback` holds a registered callback. */
    var callbackEngaged: bool
    /** The receiver's stop token, which the environment may stop. */
    var stopRequested: bool
    /** Every `_signal.emit` so far. */
    var signals: seq<Emission>
    /** How many times `__init` ran. */
    var initCalls: nat
    /** `_err`. */
    var err: Option<Exception>
    /** `_res`: None until a non-empty completion is stored. */
    var res: Option<seq<Arg>>
    /** Every signal sent to the receiver or posted for it. */
    var deliveries: seq<Delivery>
    /** Whether `std::terminate` ended the process. */
    var terminated: bool

    ghost predicate Unstarted()
      reads this
    {
      && state == Construction && !callbackEngaged && !stopRequested
      && signals == [] && initCalls == 0 && err == None && res == None && deliveries == []
      && !terminated
    }

    /** `__init` launched the Asio operation and `complete` has not run. */
    predicate Pending()
      reads this
    {
      initCalls == 1 && err == None && deliveries == [] && !terminated
    }

    constructor (kind: OpKind, ctx: Option<ContextId>, initNoexcept: bool)
      ensures this.kind == kind && this.ctx == ctx && this.initNoexcept == initNoexcept
      ensures Unstarted()
    {
      this.kind := kind;
      this.ctx := ctx;
      this.initNoexcept := initNoexcept;
      terminated := false;
      state := Construction;
      callbackEngaged := false;
      stopRequested := false;
      signals := [];
      initCalls := 0;
      err := None;
      res := None;
      deliveries := [];
    }

    /** `__stop_t::operator()`. The load and the weak compare-and-swap retry
        loop have the net effect of one atomic exchange with `stopped`. */
    method StopCallback()
      requires callbackEngaged
      modifies this`state, this`signals
      ensures state == Stopped
      ensures signals == old(signals) + if old(state) == Initiated then [Emission(Total, CallbackSide)] else []
    {
      var expected := state;
      state := Stopped;
      if expected == Initiated {
        signals := signals + [Emission(Total, CallbackSide)];
      }
    }

    /** The environment's stop request: the token becomes stopped, and a
        registered callback runs. A second request does nothing. */
    method RequestStop()
      modifies this`stopRequested, this`state, this`signals
      ensures stopRequested
      ensures old(!stopRequested && callbackEngaged) ==>
                state == Stopped &&
                signals == old(signals) + if old(state) == Initiated then [Emission(Total, CallbackSide)] else []
      ensures !old(!stopRequested && callbackEngaged) ==> state == old(state) && signals == old(signals)
    {
      if !stopRequested {
        stopRequested := true;
        if callbackEngaged {
          StopCallback();
        }
      }
    }

    /** `_stop_callback.emplace(st, ...)`: registering on a token that is
        already stopped runs the callback at once. */
    method RegisterStopCallback()
      requires !callbackEngaged
      modifies this`callbackEngaged, this`state, this`signals
      ensures callbackEngaged
      ensures stopRequested ==>
                state == Stopped &&
                signals == old(signals) + if old(state) == Initiated then [Emission(Total, CallbackSide)] else []
      ensures !stopRequested ==> state == old(state) && signals == old(signals)
    {
      callbackEngaged := true;
      if stopRequested {
        StopCallback();
      }
    }

    /** `_stop_callback.reset()`: after it the callback never runs. */
    method DeregisterStopCallback()
      modifies this`callbackEngaged
      ensures !callbackEngaged
    {
      callbackEngaged := false;
    }

    /** `__value`. */
    method ValueChannel()
      modifies this`deliveries
      ensures deliveries == old(deliveries) + [Route(ctx, SetValue(if res.Some? then res.value else []))]
    {
      deliveries := deliveries + [Route(ctx, SetValue(if res.Some? then res.value else []))];
    }

    /** `__stop`. */
    method StopChannel()
      modifies this`deliveries
      ensures deliveries == old(deliveries) + [Route(ctx, SetStopped)]
    {
      deliveries := deliveries + [Route(ctx, SetStopped)];
    }

    /** `__error`. */
    method ErrorChannel()
      requires err.Some?
      modifies this`deliveries
      ensures deliveries == old(deliveries) + [Route(ctx, SetError(err.value))]
    {
      deliveries := deliveries + [Route(ctx, SetError(err.value))];
    }

    /** `__operation_base::complete`: store a non-empty result, then route
        it. For the cancellable operation it runs only once the callback has
        been deregistered, so a late stop never sees a half-stored result. */
    method BaseComplete(args: seq<Arg>)
      requires res == None
      requires kind == Cancellable ==> !callbackEngaged
      modifies this`res, this`deliveries
      ensures res == if args == [] then None else Some(args)
      ensures deliveries == old(deliveries) + [Route(ctx, CompletionSignal(args))]
    {
      if |args| > 0 {
        res := Some(args);
        if args[0] == ErrorCodeArg(OperationAborted) {
          StopChannel();
          return;
        }
      }
      ValueChannel();
    }

    /** The Asio handler calls `complete` once. The cancellable operation
        deregisters its stop callback first. */
    method Complete(args: seq<Arg>)
      requires Pending() && res == None
      modifies this`callbackEngaged, this`res, this`deliveries
      ensures callbackEngaged == (kind != Cancellable && old(callbackEngaged))
      ensures res == if args == [] then None else Some(args)
      ensures deliveries == [Route(ctx, CompletionSignal(args))]
    {
      if kind == Cancellable {
        DeregisterStopCallback();
      }
      BaseComplete(args);
    }

    /** `start` of the cancellable operation, with the stop request delivered
        at `stopAt` when that point lies inside `start`. */
    method Start(stopAt: Landing, init: InitOutcome)
      requires kind == Cancellable && Unstarted()
      modifies this`state, this`callbackEngaged, this`stopRequested, this`signals
      modifies this`initCalls, this`err, this`deliveries, this`terminated
      ensures terminated == (!BeforeInitiation(stopAt) && init.Threw? && initNoexcept)
      ensures stopRequested == (DuringStart(stopAt) && !(terminated && stopAt == AfterInit))
      ensures initCalls == if BeforeInitiation(stopAt) then 0 else 1
      ensures err == if !BeforeInitiation(stopAt) && init.Threw? && !initNoexcept
                     then Some(init.exception) else None
      ensures callbackEngaged == ((!DuringStart(stopAt) && init.Launched?) || terminated)
      ensures state == if stopAt == BeforeStart then Construction
                       else if terminated then (if stopAt == DuringInit then Stopped else Emplaced)
                       else if DuringStart(stopAt) then Stopped
                       else if init.Launched? then Initiated
                       else Emplaced
      ensures signals == if stopAt in {DuringInit, AfterInit} && init.Launched?
                         then [Emission(Total, StartSide)] else []
      ensures deliveries == if BeforeInitiation(stopAt) then [Route(ctx, SetStopped)]
                            else if init.Threw? && !initNoexcept then [Route(ctx, SetError(init.exception))]
                            else []
    {
      if stopAt == BeforeStart { RequestStop(); }
      if stopRequested {
        StopChannel();
        return;
      }
      if stopAt == BeforeRegistration { RequestStop(); }
      RegisterStopCallback();
      if stopAt == BeforeEmplace { RequestStop(); }
      // compare-and-swap construction -> emplaced
      if state != Construction {
        DeregisterStopCallback();
        StopChannel();
        return;
      }
      state := Emplaced;
      if stopAt == DuringInit { RequestStop(); }
      initCalls := initCalls + 1;
      if init.Threw? && initNoexcept {
        // the exception leaves a noexcept function: std::terminate
        terminated := true;
        return;
      }
      if stopAt == AfterInit { RequestStop(); }
      if init.Threw? {
        DeregisterStopCallback();
        err := Some(init.exception);
        ErrorChannel();
        return;
      }
      // compare-and-swap emplaced -> initiated
      if state != Emplaced {
        DeregisterStopCallback();
        signals := signals + [Emission(Total, StartSide)];
        return;
      }
      state := Initiated;
    }

    /** `start` of both operation kinds without cancellation: run `__init`
        and turn an exception that reaches `start` into the error channel. */
    method StartWithoutCancellation(init: InitOutcome)
      requires kind != Cancellable && Unstarted()
      modifies this`initCalls, this`err, this`deliveries, this`terminated
      ensures initCalls == 1
      ensures terminated == (init.Threw? && initNoexcept)
      ensures err == if init.Threw? && !initNoexcept then Some(init.exception) else None
      ensures deliveries == if init.Threw? && !initNoexcept then [Route(ctx, SetError(init.exception))] else []
    {
      initCalls := initCalls + 1;
      if init.Threw? && initNoexcept {
        // the exception leaves a noexcept function: std::terminate
        terminated := true;
        return;
      }
      if init.Threw? {
        err := Some(init.exception);
        ErrorChannel();
      }
    }
  }

  /** One `start`, one stop request landing at `stopAt` (never, for a
      never-stoppable token), and the Asio completion with `args` when the
      operation was launched. Whatever the interleaving, the receiver gets
      exactly one signal, the one the protocol promises, unless a throwing
      initiation terminated the process; the signals emitted are the ones
      the protocol promises. */
  method Interleave(op: Operation, stopAt: Landing, init: InitOutcome, args: seq<Arg>)
    requires op.Unstarted()
    modifies op
    ensures op.signals == Emissions(EffectiveLanding(op.kind, stopAt), init)
    ensures op.initCalls == if InitInvoked(EffectiveLanding(op.kind, stopAt), init) then 1 else 0
    ensures op.deliveries ==
              DeliveriesOf(op.ctx, RunOutcome(op.initNoexcept, EffectiveLanding(op.kind, stopAt), init, args))
    ensures op.terminated <==> RunOutcome(op.initNoexcept, EffectiveLanding(op.kind, stopAt), init, args) == Terminated
    ensures !op.terminated ==> !op.callbackEngaged
  {
    if op.kind == Cancellable {
      op.Start(stopAt, init);
      if stopAt == AfterStart { op.RequestStop(); }
      if op.Pending() { op.Complete(args); }
      if stopAt == AfterComplete { op.RequestStop(); }
    } else {
      op.StartWithoutCancellation(init);
      if op.Pending() { op.Complete(args); }
    }
  }
}
