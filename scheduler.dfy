/** `scheduler_t`: a handle on one `asio_context`. Scheduling on it yields a
    sender whose operation posts one task to the context; the task completes
    the receiver with `set_value()` on the context's thread. */
module Scheduler {
  import opened Asio
  import opened OperationBase

  /** What `io_context::post` does with the task: accepts it, or throws
      (for instance when allocating the task fails). */
  datatype PostOutcome = PostAccepted | PostThrew(exception: Exception)

  /** `start` of the schedule sender's operation. A token that can be
      stopped is checked once, before posting: when it is stopped the
      receiver completes stopped inline and nothing is posted. A never-stoppable
      token is not checked. A throwing post completes with its exception. */
  function ScheduleStart(ctx: ContextId, stoppable: bool, stopRequested: bool, post: PostOutcome): (d: Delivery)
    ensures d == Inline(SetStopped) <==> stoppable && stopRequested
    ensures d.Posted? <==> !(stoppable && stopRequested) && post.PostAccepted?
    ensures d.Posted? ==> d == Posted(ctx, SetValue([]))
    ensures d.signal.SetError? <==> !(stoppable && stopRequested) && post.PostThrew?
    ensures d.signal.SetError? ==> d == Inline(SetError(post.exception))
  {
    if stoppable && stopRequested then Inline(SetStopped)
    else match post
      case PostAccepted => Posted(ctx, SetValue([]))
      case PostThrew(e) => Inline(SetError(e))
  }
}
