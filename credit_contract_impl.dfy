/**
 * The same credit router as free-standing public handlers, going through the
 * state interface: identical to the contract's own handlers except that an
 * instantiation message calls the interface's `instantiate` rather than
 * `initialize_credit`. Operation handlers change only the runtime's outbox;
 * message handlers change only the ledger.
 */
module CreditContractImpl {
  import opened Linera
  import opened CreditAbi
  import opened CreditLedger
  import opened CreditRouting

  class CreditContract {
    var runtime: Runtime
    const state: CreditState

    constructor (runtime: Runtime, state: CreditState)
      ensures this.runtime == runtime && this.state == state
    {
      this.runtime := runtime;
      this.state := state;
    }

    /** `prepare_message(message).with_authentication().send_to(the home chain)`. */
    method SendToCreator(message: Message)
      modifies this
      ensures runtime == old(runtime).(outbox := old(runtime.outbox) +
                [OutgoingMessage(old(runtime.applicationCreatorChainId), message, true)])
    {
      runtime := runtime.(outbox := runtime.outbox + [OutgoingMessage(runtime.applicationCreatorChainId, message, true)]);
    }

    method OnOpLiquidate() returns (r: Result<(), CreditError>)
      modifies this
      ensures r == Ok(())
      ensures runtime == AfterOperation(old(runtime), Send(old(runtime.applicationCreatorChainId), Message.Liquidate))
      ensures unchanged(state)
    {
      SendToCreator(Message.Liquidate);
      r := Ok(());
    }

    method OnOpSetRewardCallers(applicationIds: seq<ApplicationId>) returns (r: Result<(), CreditError>)
      modifies this
      ensures old(runtime.chainId) != old(runtime.applicationCreatorChainId) ==>
                r == Err(OperationNotAllowed) && runtime == old(runtime)
      ensures old(runtime.chainId) == old(runtime.applicationCreatorChainId) ==>
                r == Ok(()) &&
                runtime == AfterOperation(old(runtime), Send(old(runtime.applicationCreatorChainId),
                                                             Message.SetRewardCallers(applicationIds)))
      ensures unchanged(state)
    {
      if runtime.chainId != runtime.applicationCreatorChainId {
        return Err(OperationNotAllowed);
      }
      SendToCreator(Message.SetRewardCallers(applicationIds));
      r := Ok(());
    }

    method OnOpSetTransferCallers(applicationIds: seq<ApplicationId>) returns (r: Result<(), CreditError>)
      modifies this
      ensures r == Ok(())
      ensures runtime == AfterOperation(old(runtime), Send(old(runtime.applicationCreatorChainId),
                                                           Message.SetTransferCallers(applicationIds)))
      ensures unchanged(state)
    {
      SendToCreator(Message.SetTransferCallers(applicationIds));
      r := Ok(());
    }

    method OnOpTransfer(from: AccountOwner, to: AccountOwner, amount: Amount) returns (r: Result<(), CreditError>)
      modifies this
      ensures r == Ok(())
      ensures runtime == AfterOperation(old(runtime), Send(old(runtime.applicationCreatorChainId),
                                                           Message.Transfer(from, to, amount)))
      ensures unchanged(state)
    {
      SendToCreator(Message.Transfer(from, to, amount));
      r := Ok(());
    }

    method OnOpTransferExt(to: AccountOwner, amount: Amount) returns (r: Result<(), CreditError>)
      modifies this
      ensures r == Ok(())
      ensures runtime == AfterOperation(old(runtime), Send(old(runtime.applicationCreatorChainId),
                                                           Message.TransferExt(to, amount)))
      ensures unchanged(state)
    {
      SendToCreator(Message.TransferExt(to, amount));
      r := Ok(());
    }

    method OnOpRequestSubscribe() returns (r: Result<(), CreditError>)
      modifies this
      ensures r == Ok(())
      ensures runtime == AfterOperation(old(runtime), Send(old(runtime.applicationCreatorChainId),
                                                           Message.RequestSubscribe))
      ensures unchanged(state)
    {
      SendToCreator(Message.RequestSubscribe);
      r := Ok(());
    }

    method OnOpReward(owner: AccountOwner, amount: Amount) returns (r: Result<(), CreditError>)
      modifies this
      ensures r == Ok(())
      ensures runtime == AfterOperation(old(runtime), Send(old(runtime.applicationCreatorChainId),
                                                           Message.Reward(owner, amount)))
      ensures unchanged(state)
    {
      SendToCreator(Message.Reward(owner, amount));
      r := Ok(());
    }

    method OnMsgInstantiationArgument(argument: InstantiationArgument) returns (r: Result<(), CreditError>)
      modifies state
      ensures r == Ok(())
      ensures state.calls == old(state.calls) + [InstantiateCall(argument)]
    {
      state.Instantiate(argument);
      r := Ok(());
    }

    method OnMsgLiquidate() returns (r: Result<(), CreditError>)
      modifies state
      ensures r == Ok(())
      ensures state.calls == old(state.calls) + [LiquidateCall(runtime.systemTime)]
    {
      state.Liquidate(runtime.systemTime);
      r := Ok(());
    }

    method OnMsgReward(owner: AccountOwner, amount: Amount) returns (r: Result<(), CreditError>)
      modifies state
      ensures state.calls == old(state.calls) + [RewardCall(owner, amount, runtime.systemTime)]
      ensures r == state.Answer(old(state.calls), RewardCall(owner, amount, runtime.systemTime))
    {
      r := state.Reward(owner, amount, runtime.systemTime);
    }

    method OnMsgSetRewardCallers(applicationIds: seq<ApplicationId>) returns (r: Result<(), CreditError>)
      modifies state
      ensures runtime.messageOriginChainId.None? ==> r == Err(InvalidMessageId) && unchanged(state)
      ensures runtime.messageOriginChainId.Some? && runtime.messageOriginChainId.value != runtime.applicationCreatorChainId ==>
                r == Err(OperationNotAllowed) && unchanged(state)
      ensures runtime.messageOriginChainId == Some(runtime.applicationCreatorChainId) ==>
                r == Ok(()) && state.calls == old(state.calls) + [SetRewardCallersCall(applicationIds)]
    {
      var origin := RequireMessageOriginChainId(runtime);
      if origin.Err? {
        return Err(origin.error);
      }
      if origin.value != runtime.applicationCreatorChainId {
        return Err(OperationNotAllowed);
      }
      state.SetRewardCallers(applicationIds);
      r := Ok(());
    }

    method OnMsgSetTransferCallers(applicationIds: seq<ApplicationId>) returns (r: Result<(), CreditError>)
      modifies state
      ensures runtime.messageOriginChainId.None? ==> r == Err(InvalidMessageId) && unchanged(state)
      ensures runtime.messageOriginChainId.Some? && runtime.messageOriginChainId.value != runtime.applicationCreatorChainId ==>
                r == Err(OperationNotAllowed) && unchanged(state)
      ensures runtime.messageOriginChainId == Some(runtime.applicationCreatorChainId) ==>
                r == Ok(()) && state.calls == old(state.calls) + [SetTransferCallersCall(applicationIds)]
    {
      var origin := RequireMessageOriginChainId(runtime);
      if origin.Err? {
        return Err(origin.error);
      }
      if origin.value != runtime.applicationCreatorChainId {
        return Err(OperationNotAllowed);
      }
      state.SetTransferCallers(applicationIds);
      r := Ok(());
    }

    method OnMsgTransfer(from: AccountOwner, to: AccountOwner, amount: Amount) returns (r: Result<(), CreditError>)
      modifies state
      ensures state.calls == old(state.calls) + [TransferCall(from, to, amount, runtime.systemTime)]
      ensures r == state.Answer(old(state.calls), TransferCall(from, to, amount, runtime.systemTime))
    {
      r := state.Transfer(from, to, amount, runtime.systemTime);
    }

    method OnMsgTransferExt(to: AccountOwner, amount: Amount) returns (r: Result<(), CreditError>)
      modifies state
      ensures runtime.authenticatedSigner.None? ==> r == Err(InvalidSigner) && unchanged(state)
      ensures runtime.authenticatedSigner.Some? ==>
                var call := TransferCall(runtime.authenticatedSigner.value, to, amount, runtime.systemTime);
                state.calls == old(state.calls) + [call] && r == state.Answer(old(state.calls), call)
    {
      var from := RequireAuthenticatedSigner(runtime);
      if from.Err? {
        return Err(from.error);
      }
      r := state.Transfer(from.value, to, amount, runtime.systemTime);
    }

    method OnMsgRequestSubscribe() returns (r: Result<(), CreditError>)
      ensures r == Ok(())
    {
      r := Ok(());
    }
  }
}
