/**
 * The handler of the leaderboard's `UpdateValue` operation: it checks that it
 * runs on the creator chain before it touches the state, then records the
 * owner's value with the block time.
 */
module LeaderBoardUpdateValue {
  import opened Linera
  import opened LeaderBoardAbi
  import opened LeaderBoardState
  import opened LeaderBoardRuntime

  class UpdateValueHandler {
    const runtime: Runtime
    const state: LeaderBoardState
    const owner: AccountOwner
    const value: Amount

    /** `UpdateValueHandler::new`: keeps the runtime, the state and copies of
        the owner and value. */
    constructor (runtime: Runtime, state: LeaderBoardState, owner: AccountOwner, value: Amount)
      ensures this.runtime == runtime && this.state == state
      ensures this.owner == owner && this.value == value
    {
      this.runtime := runtime;
      this.state := state;
      this.owner := owner;
      this.value := value;
    }

    /**
     * `handle`: off the creator chain the access error is returned, wrapped,
     * and the state is untouched. On the creator chain the owner's item
     * becomes `{value, system_time}`; a storage error is returned wrapped and
     * leaves the state as it was; success sends no messages.
     */
    method Handle() returns (r: Result<HandlerOutcome, HandlerError>)
      modifies state
      ensures OnlyApplicationCreator(runtime).Err? ==>
                r == Err(RuntimeError(FromRuntime(OnlyApplicationCreator(runtime).error))) && unchanged(state)
      ensures OnlyApplicationCreator(runtime).Ok? && owner in state.faultyKeys ==>
                r == Err(RuntimeError(FromState(ViewError))) && unchanged(state)
      ensures OnlyApplicationCreator(runtime).Ok? && owner !in state.faultyKeys ==>
                && r == Ok(HandlerOutcome([]))
                && state.values == old(state.values)[owner := LeaderBoardItemValue(value, SystemTime(runtime))]
                && state.topK == old(state.topK) && state.topOwners == old(state.topOwners)
    {
      var allowed := OnlyApplicationCreator(runtime);
      if allowed.Err? {
        return Err(RuntimeError(FromRuntime(allowed.error)));
      }
      var now := SystemTime(runtime);
      var updated := state.UpdateValue(owner, value, now);
      if updated.Err? {
        return Err(RuntimeError(FromState(updated.error)));
      }
      r := Ok(HandlerOutcome([]));
    }
  }
}
