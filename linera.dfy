/**
 * The slice of the Linera SDK that the credit and leaderboard contracts use:
 * identifiers, amounts, timestamps, and the contract runtime as a record
 * whose outbox collects the messages a contract sends.
 */
module Linera {

  datatype Option<+T> = None | Some(value: T)

  datatype Result<+T, +E> = Ok(value: T) | Err(error: E)

  /** A chain identifier (a hash in the SDK; only equality matters here). */
  datatype ChainId = ChainId(hash: nat)

  /** An account owner (a public-key hash in the SDK). */
  datatype AccountOwner = AccountOwner(key: nat)

  /** An application identifier. */
  datatype ApplicationId = ApplicationId(id: nat)

  /** `Amount` wraps a `u128` count of attos. */
  const MAX_AMOUNT: nat := 0xFFFF_FFFF_FFFF_FFFF_FFFF_FFFF_FFFF_FFFF
  type Amount = x: nat | x <= MAX_AMOUNT

  /** `Timestamp` wraps a `u64` count of microseconds. */
  const MAX_U64: nat := 0xFFFF_FFFF_FFFF_FFFF
  type Timestamp = x: nat | x <= MAX_U64
  type U64 = x: nat | x <= MAX_U64
  type U8 = x: nat | x < 256

  /** `Amount::try_add`: the sum, or nothing when it leaves the `u128` range. */
  function TryAdd(a: Amount, b: Amount): (r: Option<Amount>)
    ensures r.Some? <==> a + b <= MAX_AMOUNT
    ensures r.Some? ==> r.value == a + b
  {
    if a + b <= MAX_AMOUNT then Some(a + b) else None
  }

  /** One entry of the runtime outbox: where a message goes and whether it
      carries the authenticated signer of the block that sent it. */
  datatype OutgoingMessage<M> = OutgoingMessage(destination: ChainId, message: M, authenticated: bool)

  /**
   * What a contract sees of `ContractRuntime` while it executes one operation
   * or one message: the chain it runs on, the chain that created the
   * application, the origin chain of the message being executed (none for an
   * operation), the authenticated signer (if any), the block time, and the
   * messages sent so far.
   */
  datatype ContractRuntime<M> = ContractRuntime(
    chainId: ChainId,
    applicationCreatorChainId: ChainId,
    messageOriginChainId: Option<ChainId>,
    authenticatedSigner: Option<AccountOwner>,
    systemTime: Timestamp,
    outbox: seq<OutgoingMessage<M>>)
}
