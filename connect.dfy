/** `connect` of the bridged sender: which operation state it builds and
    which context that operation completes through. */
module Connect {
  import opened Asio
  import opened OperationBase
  import opened Operation

  /** The scheduler the receiver's environment reports: the bridge's own
      `scheduler_t` on some context, or a scheduler of another type. */
  datatype ReceiverScheduler = AsioScheduler(context: ContextId) | OtherScheduler(id: nat)

  /** The operation `connect` builds, of `kind` and completing through `ctx`:
      connected directly, or inside `transfer(__transfer_sender, sched)` for
      a scheduler of another type. */
  datatype Connection =
    | Direct(kind: OpKind, ctx: Option<ContextId>)
    | Transferred(scheduler: nat, kind: OpKind, ctx: Option<ContextId>)

  /** `connect` of `__transfer_sender`: the op kind follows the token's type,
      and the operation gets no context, so it completes inline into
      `transfer`, which moves to the scheduler. */
  function TransferConnect(unstoppable: bool): (r: (OpKind, Option<ContextId>))
    ensures r.1 == None
    ensures r.0 == Cancellable <==> !unstoppable
    ensures r.0 != AsioWithoutCancellation
  {
    if unstoppable then (TransferWithoutCancellation, None) else (Cancellable, None)
  }

  /** `connect` of the bridged sender. On the bridge's own scheduler the
      operation gets no context exactly when that scheduler's executor is the
      initiation's associated executor, and the scheduler's context
      otherwise; a never-stoppable token selects the kind without
      cancellation. Any other scheduler goes through `transfer`. */
  function ConnectSender(sched: ReceiverScheduler, unstoppable: bool, associated: Executor): (c: Connection)
    ensures c.Direct? <==> sched.AsioScheduler?
    ensures c.Direct? ==> (c.ctx == None <==> IoContextExecutor(sched.context) == associated)
    ensures c.Direct? && c.ctx.Some? ==> c.ctx.value == sched.context
    ensures c.Direct? ==> c.kind == if unstoppable then AsioWithoutCancellation else Cancellable
    ensures c.Transferred? ==> c.scheduler == sched.id && (c.kind, c.ctx) == TransferConnect(unstoppable)
    ensures c.kind == Cancellable <==> !unstoppable
  {
    match sched
    case AsioScheduler(context) =>
      var ctx := if IoContextExecutor(context) == associated then None else Some(context);
      if unstoppable then Direct(AsioWithoutCancellation, ctx) else Direct(Cancellable, ctx)
    case OtherScheduler(id) =>
      var (kind, ctx) := TransferConnect(unstoppable);
      Transferred(id, kind, ctx)
  }

  /** Affinity: on the bridge's own scheduler a completion is delivered
      inline when the initiation already runs on that scheduler's executor,
      and is posted to the scheduler's context once otherwise. */
  lemma AffinityRouting(context: ContextId, unstoppable: bool, associated: Executor, sig: Signal)
    ensures var c := ConnectSender(AsioScheduler(context), unstoppable, associated);
            Route(c.ctx, sig) == if IoContextExecutor(context) == associated then Inline(sig) else Posted(context, sig)
  {
  }

  /** `connect` followed by one run of the operation (see
      `Operation.Interleave`). With `initNoexcept` the `__init` is the
      `noexcept` one of the code, and a throwing initiation terminates with
      no delivery; otherwise the exception reaches `start`. Whatever the
      receiver gets is inline or posted as the affinity rule says. */
  method ConnectAndRun(sched: ReceiverScheduler, unstoppable: bool, associated: Executor,
                       initNoexcept: bool, stopAt: Landing, init: InitOutcome, args: seq<Arg>)
    returns (op: Operation)
    ensures fresh(op)
    ensures var c := ConnectSender(sched, unstoppable, associated);
            op.kind == c.kind && op.ctx == c.ctx && op.initNoexcept == initNoexcept &&
            op.deliveries == DeliveriesOf(c.ctx, RunOutcome(initNoexcept, EffectiveLanding(c.kind, stopAt), init, args))
    ensures op.signals == Emissions(EffectiveLanding(op.kind, stopAt), init)
    ensures !initNoexcept ==> |op.deliveries| == 1
    ensures sched.AsioScheduler? && op.deliveries != [] ==>
              (op.deliveries[0].Posted? <==> IoContextExecutor(sched.context) != associated)
    ensures sched.OtherScheduler? && op.deliveries != [] ==> op.deliveries[0].Inline?
  {
    var c := ConnectSender(sched, unstoppable, associated);
    op := new Operation(c.kind, c.ctx, initNoexcept);
    Interleave(op, stopAt, init, args);
  }
}
