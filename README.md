# Credit router and leaderboard store, modelled in Dafny

This project models two small Linera applications.

**Credit.** An aging-balance credit ledger. The model covers two parts of it.

- **Command router.** A user submits an operation on any chain. The router
  turns it into exactly one authenticated message with the same payload and
  sends it to the application creator chain (the "home" chain). The only
  operation refused on the spot is `SetRewardCallers` submitted off the home
  chain.
- **Message guards.** On the receiving side, a message reaches the ledger only
  after these checks:
  - an allow-list message (`SetRewardCallers`, `SetTransferCallers`) must have
    the home chain as its origin. A missing origin is refused with
    `InvalidMessageId`; any other origin with `OperationNotAllowed`.
  - `TransferExt` needs an authenticated signer. Refused with `InvalidSigner`
    otherwise; the transfer is paid from the signer's account.
  - `Liquidate`, `Reward` and `Transfer` are applied with no check, with the
    block time as `now`; `InstantiationArgument` is applied with no check and
    its argument passed through unchanged; `RequestSubscribe` is accepted and
    makes no ledger call.

The model also covers the balance of a list of aged chunks
(`AgeAmounts::sum`): a left-to-right `try_add` fold that panics on overflow.

**Leaderboard.** A store that maps each owner to `{value, timestamp}`, plus a
`top_k` register. The model covers:

- the runtime adapter's guards;
- the creator-only `UpdateValue` handler;
- the handler factory, which prefers an operation over a message.

Layout, one module per file:

- `linera.dfy` (`Linera`): the SDK types both applications use.
  - `Amount` is a `u128` count of attos; `Timestamp` a `u64` of microseconds.
  - `ContractRuntime<M>` is a record: chain, creator chain, optional message
    origin, optional authenticated signer, block time, and the outbox of sent
    messages.
- `age_amounts.dfy` (`AgeAmounts`): chunks and `Sum`. The v1 crate has the
  same `AgeAmount`/`AgeAmounts`/`sum` code (credit-v1/src/lib.rs:21-39); this
  module models both copies.
- `credit_abi.dfy` (`CreditAbi`): instantiation argument, operations, messages
  and errors. The v1 and v2 crates declare these the same way.
- `credit_state.dfy` (`CreditLedger`): the ledger, as a class that records
  every call made into it.
- `credit_routing.dfy` (`CreditRouting`): the router as pure functions of the
  runtime, plus the lemma that joins the sending side to the receiving side.
- `credit_contract.dfy` (`CreditContract`): the contract's private handlers
  and the `execute_operation`/`execute_message` dispatch, proved against
  `CreditRouting`.
- `credit_contract_impl.dfy` (`CreditContractImpl`): the same handlers as
  free-standing public methods, proved against the same contracts. An
  instantiation message goes to the state interface's `instantiate`, not to
  `initialize_credit`.
- `leaderboard_abi.dfy`, `leaderboard_state.dfy`, `leaderboard_runtime.dfy`,
  `leaderboard_update_value.dfy`, `leaderboard_handlers.dfy`: the leaderboard.

The ledger and the leaderboard state are classes whose fields are updated in
place. Router and handler methods say exactly what they change:

- operation handlers modify only the runtime's outbox (`unchanged(state)`);
- message handlers modify only the ledger;
- a refused message leaves the ledger `unchanged`.

Two behaviours of the program worth naming:

- a message with no origin chain is refused with `InvalidMessageId`
  (credit-v2/src/contract.rs:109-114);
- `AgeAmounts::sum` panics on overflow, because each step is
  `try_add(..).unwrap()` (credit-v2/src/types.rs:21).

## Model

| member | source | states |
|---|---|---|
| `AgeAmounts.Sum` | credit-v2/src/types.rs:17-23 | the fold returns exactly the total of the chunk amounts when that total fits in an `Amount`, and panics exactly when it does not; an empty list sums to zero |
| `AgeAmounts.TotalAppend` | credit-v2/src/types.rs:19-21 | appending one chunk adds exactly its amount to the sum |
| `AgeAmounts.TotalPrefixBound` | credit-v1/src/lib.rs:33-39 | no running total exceeds the final total, so the fold's `unwrap` panics exactly when the final total overflows |
| `AgeAmounts.TotalIgnoresExpiry` | credit-v2/src/types.rs:5-9 | two chunk lists with the same amounts have the same sum, whatever their `expired` times |
| `CreditAbi.MessageOf` | credit-v2/src/abi.rs:23-74 | the message sent for an operation is never `InstantiationArgument` |
| `CreditAbi.OperationOf` | credit-v2/src/abi.rs:48-74 | exactly `InstantiationArgument` has no operation counterpart |
| `CreditAbi.MessagesMirrorOperations` | credit-v1/src/lib.rs:48-99 | every operation has a message with the same variant and fields, and messages add only `InstantiationArgument`; the two maps are inverse |
| `CreditLedger.CreditState.constructor` | credit-v2/src/state.rs:10-18 | a fresh ledger has no balances, no allow-listed callers and no recorded calls |
| `CreditLedger.CreditState.Answer` | credit-v2/src/interfaces/state.rs:13-28 | only `reward` and `transfer` can return an error, and the error may depend on the calls made before; the other ledger calls always succeed |
| `CreditLedger.CreditState.InitializeCredit` | credit-v2/src/contract.rs:197 | the call is recorded with its argument |
| `CreditLedger.CreditState.Instantiate` | credit-v2/src/interfaces/state.rs:9 | the call is recorded with its argument |
| `CreditLedger.CreditState.Liquidate` | credit-v2/src/interfaces/state.rs:19 | the call is recorded with its `now` |
| `CreditLedger.CreditState.Reward` | credit-v2/src/interfaces/state.rs:13-18 | the call is recorded with its arguments; its result is the ledger's answer |
| `CreditLedger.CreditState.Transfer` | credit-v2/src/interfaces/state.rs:22-28 | the call is recorded with its arguments; its result is the ledger's answer |
| `CreditLedger.CreditState.SetRewardCallers` | credit-v2/src/interfaces/state.rs:20 | the call is recorded with the given ids |
| `CreditLedger.CreditState.SetTransferCallers` | credit-v2/src/interfaces/state.rs:21 | the call is recorded with the given ids |
| `CreditRouting.RequireMessageOriginChainId` | credit-v2/src/contract.rs:109-114 | `Ok(c)` exactly when the origin is `Some(c)`; `InvalidMessageId` when there is none |
| `CreditRouting.RequireAuthenticatedSigner` | credit-v2/src/contract/contract_impl.rs:15-20 | `Ok(s)` exactly when the signer is `Some(s)`; `InvalidSigner` when there is none |
| `CreditRouting.RouteOperation` | credit-v2/src/contract.rs:123-191 | only `SetRewardCallers` off the home chain is refused (`OperationNotAllowed`); every other operation is sent to the home chain as the message that mirrors it |
| `CreditRouting.AfterOperation` | credit-v2/src/contract.rs:124-127 | a refusal leaves the runtime as it was; a send appends exactly one authenticated message and changes nothing else |
| `CreditRouting.RouteMessage` | credit-v2/src/contract.rs:193-268 | allow-list messages apply exactly when the origin is the home chain (`InvalidMessageId` with no origin, `OperationNotAllowed` from elsewhere); `TransferExt` applies exactly with a signer and pays from it (`InvalidSigner` otherwise); instantiation, liquidate, reward and transfer apply unchecked with the block time as `now`; subscribe is accepted and does nothing |
| `CreditRouting.RoutedOperationOutcome` | credit-v2/src/contract.rs:123-268 | end to end: a routed `SetRewardCallers` always applies; a routed `SetTransferCallers` applies only if submitted on the home chain; a routed `TransferExt` pays from the submitting signer or is refused; the other operations apply with their submitted fields |
| `CreditContract.CreditContract.constructor` | credit-v2/src/contract.rs:30-35 | the contract holds the given runtime and ledger |
| `CreditContract.CreditContract.SendToCreator` | credit-v2/src/contract.rs:124-127 | the outbox gains one authenticated message addressed to the creator chain; nothing else in the runtime changes |
| `CreditContract.CreditContract.Instantiate` | credit-v2/src/contract.rs:37-40 | the ledger records `initialize_credit` with the argument unchanged |
| `CreditContract.CreditContract.ExecuteOperation` | credit-v2/src/contract.rs:42-64 | the result and the new runtime are those `RouteOperation` decides; the ledger is unchanged |
| `CreditContract.CreditContract.ExecuteMessage` | credit-v2/src/contract.rs:66-101 | a refusal returns its error and an accepted subscribe returns `Ok`, both with the ledger unchanged; otherwise exactly the one call `RouteMessage` names is recorded, and its answer is the result |
| `CreditContract.CreditContract.OnOpLiquidate` | credit-v2/src/contract.rs:123-129 | `Ok`, one authenticated `Liquidate` message to the creator chain, ledger unchanged |
| `CreditContract.CreditContract.OnOpSetRewardCallers` | credit-v2/src/contract.rs:131-143 | off the creator chain: `OperationNotAllowed` and the runtime as it was; on it: `Ok` and one authenticated message with the same ids; ledger unchanged either way |
| `CreditContract.CreditContract.OnOpSetTransferCallers` | credit-v2/src/contract.rs:145-154 | `Ok` on any chain, one authenticated message with the same ids to the creator chain, ledger unchanged |
| `CreditContract.CreditContract.OnOpTransfer` | credit-v2/src/contract.rs:156-167 | `Ok`, one authenticated `Transfer` with the same from, to and amount, ledger unchanged |
| `CreditContract.CreditContract.OnOpTransferExt` | credit-v2/src/contract.rs:169-175 | `Ok`, one authenticated `TransferExt` with the same to and amount, ledger unchanged |
| `CreditContract.CreditContract.OnOpRequestSubscribe` | credit-v2/src/contract.rs:177-183 | `Ok`, one authenticated `RequestSubscribe`, ledger unchanged |
| `CreditContract.CreditContract.OnOpReward` | credit-v2/src/contract.rs:185-191 | `Ok`, one authenticated `Reward` with the same owner and amount, ledger unchanged |
| `CreditContract.CreditContract.OnMsgInstantiationArgument` | credit-v2/src/contract.rs:193-199 | `Ok`; `initialize_credit` is called with the argument unchanged |
| `CreditContract.CreditContract.OnMsgLiquidate` | credit-v2/src/contract.rs:201-204 | `Ok`; `liquidate` is called with the block time |
| `CreditContract.CreditContract.OnMsgReward` | credit-v2/src/contract.rs:206-215 | `reward` is called with the same owner and amount and the block time, with no origin or signer check; its answer is the result |
| `CreditContract.CreditContract.OnMsgSetRewardCallers` | credit-v2/src/contract.rs:217-226 | no origin: `InvalidMessageId`; origin not the creator chain: `OperationNotAllowed`; both with the ledger unchanged; from the creator chain: `Ok` and the ids are handed over |
| `CreditContract.CreditContract.OnMsgSetTransferCallers` | credit-v2/src/contract.rs:228-239 | as for reward callers, for the transfer allow-list |
| `CreditContract.CreditContract.OnMsgTransfer` | credit-v2/src/contract.rs:241-251 | `transfer` is called with the same from, to and amount and the block time, with no origin or signer check; its answer is the result |
| `CreditContract.CreditContract.OnMsgTransferExt` | credit-v2/src/contract.rs:253-263 | no signer: `InvalidSigner` and the ledger unchanged; otherwise `transfer` from the signer with the block time, and its answer is the result |
| `CreditContract.CreditContract.OnMsgRequestSubscribe` | credit-v2/src/contract.rs:265-268 | `Ok`, and it cannot change anything |
| `CreditContractImpl.CreditContract.SendToCreator` | credit-v2/src/contract/contract_impl.rs:23-26 | the outbox gains one authenticated message addressed to the creator chain; nothing else in the runtime changes |
| `CreditContractImpl.CreditContract.OnOpLiquidate` | credit-v2/src/contract/contract_impl.rs:22-28 | `Ok`, one authenticated `Liquidate` message to the creator chain, ledger unchanged |
| `CreditContractImpl.CreditContract.OnOpSetRewardCallers` | credit-v2/src/contract/contract_impl.rs:30-42 | off the creator chain: `OperationNotAllowed` and an unchanged outbox; on it: `Ok` and one authenticated message with the same ids |
| `CreditContractImpl.CreditContract.OnOpSetTransferCallers` | credit-v2/src/contract/contract_impl.rs:44-53 | `Ok`, one authenticated message with the same ids to the creator chain, ledger unchanged |
| `CreditContractImpl.CreditContract.OnOpTransfer` | credit-v2/src/contract/contract_impl.rs:55-66 | `Ok`, one authenticated `Transfer` with the same fields, ledger unchanged |
| `CreditContractImpl.CreditContract.OnOpTransferExt` | credit-v2/src/contract/contract_impl.rs:68-78 | `Ok`, one authenticated `TransferExt` with the same fields, ledger unchanged |
| `CreditContractImpl.CreditContract.OnOpRequestSubscribe` | credit-v2/src/contract/contract_impl.rs:80-86 | `Ok`, one authenticated `RequestSubscribe`, ledger unchanged |
| `CreditContractImpl.CreditContract.OnOpReward` | credit-v2/src/contract/contract_impl.rs:88-94 | `Ok`, one authenticated `Reward` with the same fields, ledger unchanged |
| `CreditContractImpl.CreditContract.OnMsgInstantiationArgument` | credit-v2/src/contract/contract_impl.rs:96-102 | `Ok`; the state interface's `instantiate` is called with the argument unchanged |
| `CreditContractImpl.CreditContract.OnMsgLiquidate` | credit-v2/src/contract/contract_impl.rs:104-107 | `Ok`; `liquidate` is called with the block time |
| `CreditContractImpl.CreditContract.OnMsgReward` | credit-v2/src/contract/contract_impl.rs:109-118 | `reward` with the same fields and the block time, unchecked; its answer is the result |
| `CreditContractImpl.CreditContract.OnMsgSetRewardCallers` | credit-v2/src/contract/contract_impl.rs:120-129 | an origin that is missing or not the creator chain is refused and the ledger is unchanged; from the creator chain the ids are handed over |
| `CreditContractImpl.CreditContract.OnMsgSetTransferCallers` | credit-v2/src/contract/contract_impl.rs:131-140 | as for reward callers, for the transfer allow-list |
| `CreditContractImpl.CreditContract.OnMsgTransfer` | credit-v2/src/contract/contract_impl.rs:142-152 | `transfer` with the same fields and the block time, unchecked; its answer is the result |
| `CreditContractImpl.CreditContract.OnMsgTransferExt` | credit-v2/src/contract/contract_impl.rs:154-164 | the authenticated signer is the `from` of the transfer; without one, `InvalidSigner` and the ledger unchanged |
| `CreditContractImpl.CreditContract.OnMsgRequestSubscribe` | credit-v2/src/contract/contract_impl.rs:166-169 | `Ok`, and it cannot change anything |
| `LeaderBoardState.ReadAfterUpdate` | leaderboard/src/state/state_impl.rs:27-42 | after an update, reading that owner gives the new item and every other owner reads as before |
| `LeaderBoardState.UpdateOverwrites` | leaderboard/src/state/state_impl.rs:41-42 | a second update of an owner replaces the first rather than accumulating |
| `LeaderBoardState.UnknownOwnerReadsDefault` | leaderboard/src/state/state_impl.rs:27-33 | an owner never updated reads as the default item: zero value, zero timestamp |
| `LeaderBoardState.LeaderBoardState.constructor` | leaderboard/src/state.rs:14-21 | a fresh state has no values, no top owners and `top_k` zero |
| `LeaderBoardState.LeaderBoardState.Instantiate` | leaderboard/src/state/state_impl.rs:13-15 | afterwards `top_k()` is `argument.top_k` and `instantiation_argument()` is `argument`; values and top owners are unchanged |
| `LeaderBoardState.LeaderBoardState.InstantiationArgument` | leaderboard/src/state/state_impl.rs:17-21 | the argument carries the current `top_k` |
| `LeaderBoardState.LeaderBoardState.TopK` | leaderboard/src/state/state_impl.rs:23-25 | the `top_k` register as stored; after `Instantiate` it is the argument's `top_k` |
| `LeaderBoardState.LeaderBoardState.Value` | leaderboard/src/state/state_impl.rs:27-33 | the stored item of the owner, or the default `{0, 0}` for an owner never written; `UnknownOwnerReadsDefault` and `ReadAfterUpdate` state the read over any map, and `UpdateValue` states what `Value` returns after a write |
| `LeaderBoardState.LeaderBoardState.UpdateValue` | leaderboard/src/state/state_impl.rs:35-46 | on success `value(owner)` is `{value, timestamp}`; every other owner's value, `top_k` and the top owners are unchanged; a storage error changes nothing |
| `LeaderBoardRuntime.ChainIdOf` | leaderboard/src/runtime/contract.rs:27-29 | the runtime's chain, unchanged |
| `LeaderBoardRuntime.SystemTime` | leaderboard/src/runtime/contract.rs:31-33 | the runtime's block time, unchanged |
| `LeaderBoardRuntime.ApplicationCreatorChainId` | leaderboard/src/runtime/contract.rs:35-37 | the runtime's creator chain, unchanged |
| `LeaderBoardRuntime.AuthenticatedSigner` | leaderboard/src/runtime/contract.rs:43-45 | the runtime's signer, unchanged |
| `LeaderBoardRuntime.RequireAuthenticatedSigner` | leaderboard/src/runtime/contract.rs:47-52 | `Ok(s)` exactly when the signer is `Some(s)`; `InvalidAuthenticatedSigner` otherwise |
| `LeaderBoardRuntime.SendMessage` | leaderboard/src/runtime/contract.rs:54-56 | the outbox gains exactly the given destination and message; nothing else changes |
| `LeaderBoardRuntime.MessageOriginChainId` | leaderboard/src/runtime/contract.rs:58-60 | the runtime's origin, unchanged |
| `LeaderBoardRuntime.RequireMessageOriginChainId` | leaderboard/src/runtime/contract.rs:62-67 | `Ok(c)` exactly when the origin is `Some(c)`; `InvalidMessageOriginChainId` otherwise |
| `LeaderBoardRuntime.OnlyApplicationCreator` | leaderboard/src/runtime/contract.rs:73-82 | `Ok` exactly when the chain is the creator chain; otherwise `PermissionDenied("Only allow application creator")` |
| `LeaderBoardUpdateValue.UpdateValueHandler.constructor` | leaderboard/src/contract_inner/handlers/operation/update_value.rs:21-29 | the handler keeps exactly the given runtime, state, owner and value |
| `LeaderBoardUpdateValue.UpdateValueHandler.Handle` | leaderboard/src/contract_inner/handlers/operation/update_value.rs:36-49 | off the creator chain: the access error wrapped as `RuntimeError` and the state unchanged; on it: the owner's item becomes `{value, system_time}` and the outcome has no messages; a storage error is wrapped as `RuntimeError` and changes nothing |
| `LeaderBoardHandlers.NewOperationHandler` | leaderboard/src/contract_inner/handlers.rs:17-27 | `UpdateValue { owner, value }` gets an update-value handler with the same owner and value; no other variant gets one |
| `LeaderBoardHandlers.New` | leaderboard/src/contract_inner/handlers.rs:37-50 | an operation, when given, is used even if a message is too; with a message only, the message path is taken; with neither, `InvalidOperationAndMessage` |

## Left out

- The ledger's algorithms (issue with expiry, oldest-first spend with remainder split, expiry sweep, allow-list updates) are implemented in a state file that is not part of this model. The ledger records each call with its arguments. Whether `reward` or `transfer` fails is a parameter of the ledger (`refusal`). It is a function of the call and of every earlier call, so an answer may depend on what earlier calls did to the balances. How the balances decide it is not modelled.
- CreditLedger.CreditState.Reward: promises nothing about balances, spendables or the pool, because the body that updates them is not part of this model.
- CreditLedger.CreditState.Transfer: promises nothing about balances or spendables, for the same reason.
- CreditLedger.CreditState.Liquidate: promises nothing about the stored chunks, for the same reason.
- CreditLedger.CreditState.SetRewardCallers: promises nothing about the stored allow-list, for the same reason.
- CreditLedger.CreditState.SetTransferCallers: promises nothing about the stored allow-list, for the same reason.
- CreditLedger.CreditState.InitializeCredit: promises nothing about the stored supply and lifetime, for the same reason.
- CreditLedger.CreditState.Instantiate: promises nothing about the stored supply and lifetime, for the same reason.
- Panics: `expect` in the dispatchers is modelled as the `Err` result the handler returned. The `unwrap` in `sum` is modelled as `Panicked`. The runtime's roll-back of a failed block is not modelled.
- Cross-chain delivery and ordering belong to the Linera runtime. `CreditRouting.Delivered` assumes the SDK's behaviour: an authenticated message carries the sender's chain as origin and the sender's signer.
- Storage I/O: loading and saving state, and the async view storage, are left out. The leaderboard's failed inserts are modelled by the `faultyKeys` parameter. A failed read of a value, which the source also answers with the default item, is not modelled.
- `application_parameters()` in `instantiate` returns `()`, which is discarded, so it is left out.
- The state adapters (delegation through `Rc<RefCell<..>>`), the GraphQL services and the two `contract_impl.rs` dispatchers that panic on error are left out.
- The leaderboard's message handler is `unimplemented!()` in the source. The factory's choice of it is modelled as `MessageHandler(m)`, but it has no behaviour.
- The leaderboard's operator and caller operations have no arm in the factory's match, so the source as written does not compile for them. The model gives them `NoOperationHandler(op)`. The `operator` and `caller` registers in the leaderboard state are never read or written by the core, so they are left out.
- The leaderboard's `top_owners` is never updated by `update_value` (a TODO in the source). The model keeps it unchanged.
- The credit-v2 handler-factory files are `unimplemented!()` or not valid Rust, so they are left out.
