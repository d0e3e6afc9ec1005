/**
 * The leaderboard's runtime adapter: reads of the contract runtime, the two
 * `require_*` conversions from an optional value to a result, the message
 * send, and the creator-chain access check.
 */
module LeaderBoardRuntime {
  import opened Linera
  import opened LeaderBoardAbi

  type Runtime = ContractRuntime<Message>

  function ChainIdOf(rt: Runtime): (c: ChainId)
    ensures c == rt.chainId
  {
    rt.chainId
  }

  function SystemTime(rt: Runtime): (t: Timestamp)
    ensures t == rt.systemTime
  {
    rt.systemTime
  }

  function ApplicationCreatorChainId(rt: Runtime): (c: ChainId)
    ensures c == rt.applicationCreatorChainId
  {
    rt.applicationCreatorChainId
  }

  /** `authenticated_signer`: the runtime's signer, unchanged. */
  function AuthenticatedSigner(rt: Runtime): (s: Option<AccountOwner>)
    ensures s == rt.authenticatedSigner
  {
    rt.authenticatedSigner
  }

  /** `require_authenticated_signer`: `Ok(s)` exactly when the signer is `s`. */
  function RequireAuthenticatedSigner(rt: Runtime): (r: Result<AccountOwner, RuntimeError>)
    ensures forall s :: r == Ok(s) <==> AuthenticatedSigner(rt) == Some(s)
    ensures r.Err? <==> AuthenticatedSigner(rt).None?
    ensures r.Err? ==> r.error == InvalidAuthenticatedSigner
  {
    match rt.authenticatedSigner
    case Some(s) => Ok(s)
    case None => Err(InvalidAuthenticatedSigner)
  }

  /** `send_message`: the destination and message go to the outbox as given,
      without authentication; nothing else changes. */
  function SendMessage(rt: Runtime, destination: ChainId, message: Message): (after: Runtime)
    ensures after.(outbox := rt.outbox) == rt
    ensures after.outbox == rt.outbox + [OutgoingMessage(destination, message, false)]
  {
    rt.(outbox := rt.outbox + [OutgoingMessage(destination, message, false)])
  }

  /** `message_origin_chain_id`: the runtime's origin, unchanged. */
  function MessageOriginChainId(rt: Runtime): (c: Option<ChainId>)
    ensures c == rt.messageOriginChainId
  {
    rt.messageOriginChainId
  }

  /** `require_message_origin_chain_id`: `Ok(c)` exactly when the origin is `c`. */
  function RequireMessageOriginChainId(rt: Runtime): (r: Result<ChainId, RuntimeError>)
    ensures forall c :: r == Ok(c) <==> MessageOriginChainId(rt) == Some(c)
    ensures r.Err? <==> MessageOriginChainId(rt).None?
    ensures r.Err? ==> r.error == InvalidMessageOriginChainId
  {
    match rt.messageOriginChainId
    case Some(c) => Ok(c)
    case None => Err(InvalidMessageOriginChainId)
  }

  /** `only_application_creator`: passes exactly on the creator chain. */
  function OnlyApplicationCreator(rt: Runtime): (r: Result<(), RuntimeError>)
    ensures r.Ok? <==> ChainIdOf(rt) == ApplicationCreatorChainId(rt)
    ensures r.Err? ==> r.error == PermissionDenied("Only allow application creator")
  {
    if rt.chainId == rt.applicationCreatorChainId then Ok(())
    else Err(PermissionDenied("Only allow application creator"))
  }
}
