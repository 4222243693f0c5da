/** Values the bridge exchanges with Asio and with the receiver, kept opaque:
    an execution context is known only by its identity, an exception only by
    a token, and an error code only by whether it is Asio's
    `operation_aborted` sentinel. */
module Asio {

  datatype Option<+T> = None | Some(value: T)

  /** Identity of one `asio_context` (the pointer the scheduler and the
      operation hold). Two handles are equal iff they name the same context. */
  datatype ContextId = ContextId(id: nat)

  /** An Asio executor, compared with `==`. `IoContextExecutor(c)` is the
      plain executor of context `c`; `OtherExecutor` stands for any executor
      that differs from it (another context's, or one with other properties
      or another allocator); an initiation with no associated executor
      reports the system executor. */
  datatype Executor =
    | IoContextExecutor(context: ContextId)
    | SystemExecutor
    | OtherExecutor(id: nat)

  /** An `asio::error_code`: the cancellation sentinel or any other code
      (success included). */
  datatype ErrorCode = OperationAborted | Code(value: int)

  /** The only cancellation type the bridge emits is `total`; the others are
      listed because a cancellation signal can carry them. */
  datatype CancellationType = Terminal | Partial | Total

  /** An exception captured in a `std::exception_ptr`, known by a token. */
  datatype Exception = Exception(token: nat)
}
