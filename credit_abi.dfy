/**
 * The credit application's interface: what it is instantiated with, the
 * operations a user submits on any chain, the messages routed to the
 * creator chain, and the errors its handlers return. The v1 and v2 crates
 * declare the same shapes.
 */
module CreditAbi {
  import opened Linera

  datatype InstantiationArgument = InstantiationArgument(initialSupply: Amount, amountAliveMs: U64)

  datatype Operation =
    | Liquidate
    | Transfer(from: AccountOwner, to: AccountOwner, amount: Amount)
    | TransferExt(to: AccountOwner, amount: Amount)
    | SetRewardCallers(applicationIds: seq<ApplicationId>)
    | SetTransferCallers(applicationIds: seq<ApplicationId>)
    | RequestSubscribe
    | Reward(owner: AccountOwner, amount: Amount)

  datatype Message =
    | InstantiationArgument(argument: InstantiationArgument)
    | Liquidate
    | Reward(owner: AccountOwner, amount: Amount)
    | Transfer(from: AccountOwner, to: AccountOwner, amount: Amount)
    | TransferExt(to: AccountOwner, amount: Amount)
    | SetRewardCallers(applicationIds: seq<ApplicationId>)
    | SetTransferCallers(applicationIds: seq<ApplicationId>)
    | RequestSubscribe

  datatype CreditError =
    | BcsError
    | JsonError
    | NotImplemented
    | CallerNotAllowed
    | OperationNotAllowed
    | SessionsNotSupported
    | InsufficientAccountBalance
    | InvalidSigner
    | InvalidMessageId
    | ViewError

  /** The message an operation handler sends for `op`: the variant of the
      same name with the same fields. */
  function MessageOf(op: Operation): (m: Message)
    ensures !m.InstantiationArgument?
  {
    match op
    case Liquidate => Message.Liquidate
    case Transfer(from, to, amount) => Message.Transfer(from, to, amount)
    case TransferExt(to, amount) => Message.TransferExt(to, amount)
    case SetRewardCallers(ids) => Message.SetRewardCallers(ids)
    case SetTransferCallers(ids) => Message.SetTransferCallers(ids)
    case RequestSubscribe => Message.RequestSubscribe
    case Reward(owner, amount) => Message.Reward(owner, amount)
  }

  /** The operation a message mirrors; `InstantiationArgument` mirrors none. */
  function OperationOf(m: Message): (r: Option<Operation>)
    ensures r.None? <==> m.InstantiationArgument?
  {
    match m
    case InstantiationArgument(_) => None
    case Liquidate => Some(Operation.Liquidate)
    case Reward(owner, amount) => Some(Operation.Reward(owner, amount))
    case Transfer(from, to, amount) => Some(Operation.Transfer(from, to, amount))
    case TransferExt(to, amount) => Some(Operation.TransferExt(to, amount))
    case SetRewardCallers(ids) => Some(Operation.SetRewardCallers(ids))
    case SetTransferCallers(ids) => Some(Operation.SetTransferCallers(ids))
    case RequestSubscribe => Some(Operation.RequestSubscribe)
  }

  /** Every operation has a message with the same variant and fields, and the
      message set adds only `InstantiationArgument`: `MessageOf` and
      `OperationOf` are inverse on operations, and every other message is the
      image of exactly the operation `OperationOf` gives back. */
  lemma MessagesMirrorOperations(op: Operation, m: Message)
    ensures OperationOf(MessageOf(op)) == Some(op)
    ensures !m.InstantiationArgument? ==> MessageOf(OperationOf(m).value) == m
    ensures MessageOf(op) == m <==> OperationOf(m) == Some(op)
  {
    match op
    case Liquidate =>
    case Transfer(_, _, _) =>
    case TransferExt(_, _) =>
    case SetRewardCallers(_) =>
    case SetTransferCallers(_) =>
    case RequestSubscribe =>
    case Reward(_, _) =>
  }

  /** The administrative variants, whose effect is on the caller allow-lists. */
  predicate IsAdmin(m: Message)
  {
    m.SetRewardCallers? || m.SetTransferCallers?
  }
}
