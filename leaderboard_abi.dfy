/**
 * The leaderboard application's interface and error types: the operations
 * and messages it accepts, its instantiation argument, and the errors of its
 * state, its runtime adapter and its handlers.
 */
module LeaderBoardAbi {
  import opened Linera

  /** Operations can only be applied on the creator chain. */
  datatype Operation =
    | UpdateValue(owner: AccountOwner, value: Amount)
    | ProposeOperator(operator: AccountOwner)
    | ApproveOperator
    | RejectOperator
    | ConfirmOperator
    | UpdateCaller(caller: ApplicationId)

  datatype Message =
    | ProposeOperator(operator: AccountOwner)
    | ApproveOperator
    | RejectOperator
    | ConfirmOperator
    | UpdateCaller(caller: ApplicationId)

  datatype InstantiationArgument = InstantiationArgument(topK: U8)

  /** Errors of the stored state. */
  datatype StateError = ViewError

  /** Errors of the runtime adapter. */
  datatype RuntimeError =
    | RuntimeAccountPermissionError
    | InvalidMessageOriginChainId
    | InvalidAuthenticatedSigner
    | PermissionDenied(reason: string)

  /** The error a handler wraps in `HandlerError::RuntimeError` (a boxed error in the source). */
  datatype BoxedError = FromRuntime(runtimeError: RuntimeError) | FromState(stateError: StateError)

  datatype HandlerError =
    | InvalidOperationAndMessage
    | RuntimeError(cause: BoxedError)

  /** What a handler hands back: the messages it wants sent. */
  datatype HandlerOutcome = HandlerOutcome(messages: seq<Message>)
}
