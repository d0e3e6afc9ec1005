/**
 * The leaderboard's handler factory: given an optional operation and an
 * optional message, it picks the handler to run, preferring the operation.
 * A handler is described here by what it is built from.
 */
module LeaderBoardHandlers {
  import opened Linera
  import opened LeaderBoardAbi

  /** The handler the factory builds: the `UpdateValue` handler, recorded by
      the owner and value it is constructed with (the arguments of
      `LeaderBoardUpdateValue.UpdateValueHandler`'s constructor besides the
      runtime and the state); no handler, for the operation variants the factory's
      match does not cover; or the message handler, whose construction is not
      implemented in the source. */
  datatype Handler =
    | UpdateValueFor(owner: AccountOwner, value: Amount)
    | NoOperationHandler(op: Operation)
    | MessageHandler(m: Message)

  /** `new_operation_handler`. */
  function NewOperationHandler(op: Operation): (h: Handler)
    ensures op.UpdateValue? <==> h.UpdateValueFor?
    ensures op.UpdateValue? ==> h.owner == op.owner && h.value == op.value
    ensures !op.UpdateValue? ==> h == NoOperationHandler(op)
  {
    match op
    case UpdateValue(owner, value) => UpdateValueFor(owner, value)
    case _ => NoOperationHandler(op)
  }

  /** `HandlerFactory::new`: the operation path whenever an operation is
      given, else the message path, else `InvalidOperationAndMessage`. */
  function New(op: Option<Operation>, m: Option<Message>): (r: Result<Handler, HandlerError>)
    ensures op.Some? ==> r == Ok(NewOperationHandler(op.value))
    ensures op.None? && m.Some? ==> r == Ok(MessageHandler(m.value))
    ensures r.Err? <==> op.None? && m.None?
    ensures r.Err? ==> r.error == InvalidOperationAndMessage
  {
    if op.Some? then Ok(NewOperationHandler(op.value))
    else if m.Some? then Ok(MessageHandler(m.value))
    else Err(InvalidOperationAndMessage)
  }
}
