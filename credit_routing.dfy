/**
 * What the credit router does, as functions of the runtime it runs in. Both
 * router variants (the contract's private handlers and the free-standing
 * public ones) are proved against these functions.
 *
 * An operation submitted on any chain becomes one authenticated message with
 * the same payload, sent to the application creator ("home") chain; the only
 * operation refused on the spot is `SetRewardCallers` on a chain other than
 * the home chain. A message is applied to the ledger behind two guards: an
 * administrative message needs an origin chain equal to the home chain, and
 * `TransferExt` needs an authenticated signer, from whose account it pays.
 */
module CreditRouting {
  import opened Linera
  import opened CreditAbi
  import opened CreditLedger

  type Runtime = ContractRuntime<Message>

  /** `require_message_origin_chain_id`: the origin of the message being
      executed, or `InvalidMessageId` when there is none. */
  function RequireMessageOriginChainId(rt: Runtime): (r: Result<ChainId, CreditError>)
    ensures r.Ok? <==> rt.messageOriginChainId.Some?
    ensures r.Ok? ==> rt.messageOriginChainId == Some(r.value)
    ensures r.Err? ==> r.error == InvalidMessageId
  {
    match rt.messageOriginChainId
    case Some(chain) => Ok(chain)
    case None => Err(InvalidMessageId)
  }

  /** `require_authenticated_signer`: the signer, or `InvalidSigner` when the
      block carries none. */
  function RequireAuthenticatedSigner(rt: Runtime): (r: Result<AccountOwner, CreditError>)
    ensures r.Ok? <==> rt.authenticatedSigner.Some?
    ensures r.Ok? ==> rt.authenticatedSigner == Some(r.value)
    ensures r.Err? ==> r.error == InvalidSigner
  {
    match rt.authenticatedSigner
    case Some(owner) => Ok(owner)
    case None => Err(InvalidSigner)
  }

  /** The decision an operation handler takes. */
  datatype OperationStep = Reject(error: CreditError) | Send(destination: ChainId, message: Message)

  /** How an operation submitted on chain `rt.chainId` is handled. */
  function RouteOperation(rt: Runtime, op: Operation): (s: OperationStep)
    ensures s.Reject? <==> op.SetRewardCallers? && rt.chainId != rt.applicationCreatorChainId
    ensures s.Reject? ==> s.error == OperationNotAllowed
    ensures s.Send? ==> s.destination == rt.applicationCreatorChainId
    ensures s.Send? ==> OperationOf(s.message) == Some(op)
  {
    MessagesMirrorOperations(op, MessageOf(op));
    if op.SetRewardCallers? && rt.chainId != rt.applicationCreatorChainId then Reject(OperationNotAllowed)
    else Send(rt.applicationCreatorChainId, MessageOf(op))
  }

  /** The runtime after an operation handler has acted: a rejection leaves it
      as it was, a send appends one authenticated message to the outbox. */
  function AfterOperation(rt: Runtime, s: OperationStep): (after: Runtime)
    ensures after.(outbox := rt.outbox) == rt
    ensures s.Reject? ==> after.outbox == rt.outbox
    ensures s.Send? ==> |after.outbox| == |rt.outbox| + 1 && after.outbox[..|rt.outbox|] == rt.outbox
    ensures s.Send? ==> after.outbox[|rt.outbox|] == OutgoingMessage(s.destination, s.message, true)
  {
    match s
    case Reject(_) => rt
    case Send(destination, message) => rt.(outbox := rt.outbox + [OutgoingMessage(destination, message, true)])
  }

  /** The decision a message handler takes: refuse, initialize the ledger with
      the argument, make one ledger call, or accept and do nothing. */
  datatype MessageStep =
    | Refuse(error: CreditError)
    | Initialize(argument: InstantiationArgument)
    | Apply(call: LedgerCall)
    | Accept

  /** How a message is handled on the chain whose runtime is `rt`. */
  function RouteMessage(rt: Runtime, m: Message): (s: MessageStep)
    // administrative messages: only from the home chain
    ensures IsAdmin(m) ==> (s.Apply? <==> rt.messageOriginChainId == Some(rt.applicationCreatorChainId))
    ensures IsAdmin(m) && rt.messageOriginChainId.None? ==> s == Refuse(InvalidMessageId)
    ensures IsAdmin(m) && rt.messageOriginChainId.Some? && rt.messageOriginChainId.value != rt.applicationCreatorChainId ==>
              s == Refuse(OperationNotAllowed)
    ensures m.SetRewardCallers? && s.Apply? ==> s.call == SetRewardCallersCall(m.applicationIds)
    ensures m.SetTransferCallers? && s.Apply? ==> s.call == SetTransferCallersCall(m.applicationIds)
    // transfers on behalf of the signer: only with a signer
    ensures m.TransferExt? ==> (s.Apply? <==> rt.authenticatedSigner.Some?)
    ensures m.TransferExt? && rt.authenticatedSigner.None? ==> s == Refuse(InvalidSigner)
    ensures m.TransferExt? && s.Apply? ==>
              s.call == TransferCall(rt.authenticatedSigner.value, m.to, m.amount, rt.systemTime)
    // everything else: no origin or signer check, the block time as `now`
    ensures m.InstantiationArgument? ==> s == Initialize(m.argument)
    ensures m.Liquidate? ==> s == Apply(LiquidateCall(rt.systemTime))
    ensures m.Reward? ==> s == Apply(RewardCall(m.owner, m.amount, rt.systemTime))
    ensures m.Transfer? ==> s == Apply(TransferCall(m.from, m.to, m.amount, rt.systemTime))
    ensures m.RequestSubscribe? ==> s == Accept
  {
    match m
    case InstantiationArgument(argument) => Initialize(argument)
    case Liquidate => Apply(LiquidateCall(rt.systemTime))
    case Reward(owner, amount) => Apply(RewardCall(owner, amount, rt.systemTime))
    case SetRewardCallers(ids) =>
      (match RequireMessageOriginChainId(rt)
       case Err(e) => Refuse(e)
       case Ok(origin) =>
         if origin != rt.applicationCreatorChainId then Refuse(OperationNotAllowed)
         else Apply(SetRewardCallersCall(ids)))
    case SetTransferCallers(ids) =>
      (match RequireMessageOriginChainId(rt)
       case Err(e) => Refuse(e)
       case Ok(origin) =>
         if origin != rt.applicationCreatorChainId then Refuse(OperationNotAllowed)
         else Apply(SetTransferCallersCall(ids)))
    case Transfer(from, to, amount) => Apply(TransferCall(from, to, amount, rt.systemTime))
    case TransferExt(to, amount) =>
      (match RequireAuthenticatedSigner(rt)
       case Err(e) => Refuse(e)
       case Ok(from) => Apply(TransferCall(from, to, amount, rt.systemTime)))
    case RequestSubscribe => Accept
  }

  /** The runtime a routed message finds on its destination chain: it was
      sent from `sender`'s chain, and carries `sender`'s signer when it was
      sent with authentication. */
  function Delivered(sender: Runtime, out: OutgoingMessage<Message>, now: Timestamp): (home: Runtime)
    ensures home.chainId == out.destination
    ensures home.messageOriginChainId == Some(sender.chainId)
  {
    ContractRuntime(out.destination, sender.applicationCreatorChainId, Some(sender.chainId),
                    if out.authenticated then sender.authenticatedSigner else None, now, [])
  }

  /**
   * The two halves of the protocol together: an operation that is sent is
   * applied on the home chain exactly as the guards allow. A routed
   * `SetRewardCallers` is always applied (it was only sent from the home
   * chain); a routed `SetTransferCallers` is applied only when it was
   * submitted on the home chain; a routed `TransferExt` pays from the
   * submitting signer and is refused without one; the other operations are
   * applied with the fields they were submitted with.
   */
  lemma {:induction false} RoutedOperationOutcome(sender: Runtime, op: Operation, now: Timestamp)
    requires RouteOperation(sender, op).Send?
    ensures var out := OutgoingMessage(RouteOperation(sender, op).destination, RouteOperation(sender, op).message, true);
            var home := Delivered(sender, out, now);
            var s := RouteMessage(home, out.message);
            && home.chainId == sender.applicationCreatorChainId
            && (op.SetRewardCallers? ==> s == Apply(SetRewardCallersCall(op.applicationIds)))
            && (op.SetTransferCallers? ==>
                  s == if sender.chainId == sender.applicationCreatorChainId
                       then Apply(SetTransferCallersCall(op.applicationIds))
                       else Refuse(OperationNotAllowed))
            && (op.TransferExt? ==>
                  s == if sender.authenticatedSigner.Some?
                       then Apply(TransferCall(sender.authenticatedSigner.value, op.to, op.amount, now))
                       else Refuse(InvalidSigner))
            && (op.Transfer? ==> s == Apply(TransferCall(op.from, op.to, op.amount, now)))
            && (op.Reward? ==> s == Apply(RewardCall(op.owner, op.amount, now)))
            && (op.Liquidate? ==> s == Apply(LiquidateCall(now)))
            && (op.RequestSubscribe? ==> s == Accept)
  {
    var s := RouteOperation(sender, op);
    MessagesMirrorOperations(op, s.message);
    assert s.message == MessageOf(op);
  }
}
