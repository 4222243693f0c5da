/** What every bridged operation shares (`__operation_base`): how a result
    reaches the receiver. The three channels `__value`, `__stop` and `__error`
    post a completion task to the operation's context when it has one and
    complete inline otherwise; `complete` picks the channel from the result
    the Asio operation handed back. */
module OperationBase {
  import opened Asio

  /** One argument of the Asio completion: an `error_code`, or a value of any
      other type, known by a token. */
  datatype Arg = ErrorCodeArg(code: ErrorCode) | OtherArg(token: nat)

  /** A completion signal of the receiver: `set_value(args...)`,
      `set_error(exception_ptr)` or `set_stopped()`. */
  datatype Signal = SetValue(args: seq<Arg>) | SetError(error: Exception) | SetStopped

  /** How a signal reaches the receiver: called inline, or carried by a
      completion task posted to a context, which calls it when it runs. */
  datatype Delivery = Inline(signal: Signal) | Posted(context: ContextId, signal: Signal)

  /** The routing shared by `__value`, `__stop` and `__error`. */
  function Route(ctx: Option<ContextId>, sig: Signal): (d: Delivery)
    ensures d.signal == sig
    ensures d.Posted? <==> ctx.Some?
    ensures ctx.Some? ==> d.context == ctx.value
  {
    match ctx
    case Some(c) => Posted(c, sig)
    case None => Inline(sig)
  }

  /** Whether the result tuple starts with the `operation_aborted` code. */
  predicate AbortedResult(args: seq<Arg>)
  {
    |args| > 0 && args[0] == ErrorCodeArg(OperationAborted)
  }

  /** The channel `complete` selects: the stopped channel for a result whose
      first element is `operation_aborted`, the value channel with the whole
      tuple for every other result, ordinary error codes and the empty
      completion included. `complete` never selects the error channel. */
  function CompletionSignal(args: seq<Arg>): (sig: Signal)
    ensures sig == SetStopped <==> AbortedResult(args)
    ensures !AbortedResult(args) ==> sig == SetValue(args)
    ensures !sig.SetError?
  {
    if |args| > 0 && args[0] == ErrorCodeArg(OperationAborted) then SetStopped
    else SetValue(args)
  }
}
