/** The collaborators `sunerror.go` only calls: the caller's `context.Context`, the logging
    function supplied with `WithLogEngine`, and the callback supplied with `WithAsyncExecutor`. */
module Host {

  /** A `context.Context`, passed through unchanged. */
  datatype Context = Context(id: nat)

  /** A callback given to `WithAsyncExecutor`, identified only by its identity. */
  datatype AsyncFn = AsyncFn(id: nat)

  /** One call of a logging function: its context, format string and single argument. */
  datatype LogCall = LogCall(ctx: Context, format: string, arg: string)

  /** A logging function (`logFunc`): what it does is outside the model, so it keeps the list
      of the calls made to it. */
  class LogSink {
    var calls: seq<LogCall>

    constructor ()
      ensures calls == []
    {
      calls := [];
    }

    method Log(ctx: Context, format: string, arg: string)
      modifies this
      ensures calls == old(calls) + [LogCall(ctx, format, arg)]
    {
      calls := calls + [LogCall(ctx, format, arg)];
    }
  }
}
