/**
 * The credit ledger as the routers see it. The ledger's own algorithms
 * (reward, transfer, liquidate and the allow-list updates) are not part of
 * this model: each call is recorded, in order, in `calls`, and the answer a
 * fallible call gets is a parameter of the ledger (`refusal`). The contracts
 * of these methods promise nothing about the stored balances, so a caller can
 * rely only on what the routers themselves guarantee.
 */
module CreditLedger {
  import opened Linera
  import opened CreditAbi
  import opened AgeAmounts

  /** One call into the ledger, with the arguments it was given. */
  datatype LedgerCall =
    | InitializeCreditCall(argument: InstantiationArgument)
    | InstantiateCall(argument: InstantiationArgument)
    | LiquidateCall(now: Timestamp)
    | RewardCall(owner: AccountOwner, amount: Amount, now: Timestamp)
    | TransferCall(from: AccountOwner, to: AccountOwner, amount: Amount, now: Timestamp)
    | SetRewardCallersCall(applicationIds: seq<ApplicationId>)
    | SetTransferCallersCall(applicationIds: seq<ApplicationId>)

  class CreditState {
    // The stored state of the credit application.
    var initialSupply: Amount
    var balance: Amount
    var amountAliveMs: U64
    var balances: map<AccountOwner, AgeAmounts>
    var spendables: map<AccountOwner, Amount>
    var rewardCallers: set<ApplicationId>
    var transferCallers: set<ApplicationId>

    /** Every call made into the ledger, oldest first. */
    var calls: seq<LedgerCall>

    /** The error, if any, the ledger's `reward` or `transfer` returns for a
        call, given the calls made before it (a transfer can fail once earlier
        calls have drained the payer's balance). */
    const refusal: (seq<LedgerCall>, LedgerCall) -> Option<CreditError>

    /** An empty ledger that answers calls as `refusal` says. */
    constructor (refusal: (seq<LedgerCall>, LedgerCall) -> Option<CreditError>)
      ensures this.refusal == refusal && calls == []
      ensures balances == map[] && spendables == map[]
      ensures rewardCallers == {} && transferCallers == {}
    {
      this.refusal := refusal;
      initialSupply, balance, amountAliveMs := 0, 0, 0;
      balances, spendables := map[], map[];
      rewardCallers, transferCallers := {}, {};
      calls := [];
    }

    /** What a call returns after the calls in `history`: only `reward` and
        `transfer` can fail. */
    function Answer(history: seq<LedgerCall>, call: LedgerCall): (r: Result<(), CreditError>)
      ensures r.Err? ==> (call.RewardCall? || call.TransferCall?) && Some(r.error) == refusal(history, call)
      ensures (call.RewardCall? || call.TransferCall?) && refusal(history, call).None? ==> r.Ok?
    {
      if (call.RewardCall? || call.TransferCall?) && refusal(history, call).Some? then Err(refusal(history, call).value)
      else Ok(())
    }

    /** `initialize_credit`, the contract's own initializer. */
    method InitializeCredit(argument: InstantiationArgument)
      modifies this
      ensures calls == old(calls) + [InitializeCreditCall(argument)]
    {
      calls := calls + [InitializeCreditCall(argument)];
    }

    /** `instantiate` of the state interface. */
    method Instantiate(argument: InstantiationArgument)
      modifies this
      ensures calls == old(calls) + [InstantiateCall(argument)]
    {
      calls := calls + [InstantiateCall(argument)];
    }

    method Liquidate(now: Timestamp)
      modifies this
      ensures calls == old(calls) + [LiquidateCall(now)]
    {
      calls := calls + [LiquidateCall(now)];
    }

    method Reward(owner: AccountOwner, amount: Amount, now: Timestamp) returns (r: Result<(), CreditError>)
      modifies this
      ensures calls == old(calls) + [RewardCall(owner, amount, now)]
      ensures r == Answer(old(calls), RewardCall(owner, amount, now))
    {
      r := Answer(calls, RewardCall(owner, amount, now));
      calls := calls + [RewardCall(owner, amount, now)];
    }

    method Transfer(from: AccountOwner, to: AccountOwner, amount: Amount, now: Timestamp)
      returns (r: Result<(), CreditError>)
      modifies this
      ensures calls == old(calls) + [TransferCall(from, to, amount, now)]
      ensures r == Answer(old(calls), TransferCall(from, to, amount, now))
    {
      r := Answer(calls, TransferCall(from, to, amount, now));
      calls := calls + [TransferCall(from, to, amount, now)];
    }

    method SetRewardCallers(applicationIds: seq<ApplicationId>)
      modifies this
      ensures calls == old(calls) + [SetRewardCallersCall(applicationIds)]
    {
      calls := calls + [SetRewardCallersCall(applicationIds)];
    }

    method SetTransferCallers(applicationIds: seq<ApplicationId>)
      modifies this
      ensures calls == old(calls) + [SetTransferCallersCall(applicationIds)]
    {
      calls := calls + [SetTransferCallersCall(applicationIds)];
    }
  }
}
