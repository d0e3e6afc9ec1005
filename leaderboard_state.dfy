/**
 * The leaderboard's stored state: the latest value recorded for each owner,
 * the top owners, and the `top_k` register. Reads of an owner never recorded
 * give the default item; an update overwrites the owner's item and nothing
 * else.
 */
module LeaderBoardState {
  import opened Linera
  import opened LeaderBoardAbi

  /** The value recorded for one owner and the time it was recorded. */
  datatype LeaderBoardItemValue = LeaderBoardItemValue(value: Amount, timestamp: Timestamp)

  /** `LeaderBoardItemValue::default()`: zero value at time zero. */
  const DEFAULT_ITEM := LeaderBoardItemValue(0, 0)

  /** The item a read of `owner` in `values` returns. */
  function ValueIn(values: map<AccountOwner, LeaderBoardItemValue>, owner: AccountOwner): LeaderBoardItemValue
  {
    if owner in values then values[owner] else DEFAULT_ITEM
  }

  /** Read after write: an update is what the next read of that owner returns,
      and every other owner reads as before. */
  lemma ReadAfterUpdate(values: map<AccountOwner, LeaderBoardItemValue>, owner: AccountOwner,
                        item: LeaderBoardItemValue, other: AccountOwner)
    ensures ValueIn(values[owner := item], owner) == item
    ensures other != owner ==> ValueIn(values[owner := item], other) == ValueIn(values, other)
  {
  }

  /** Overwrite, not accumulate: a second update of the same owner replaces
      the first entirely. */
  lemma UpdateOverwrites(values: map<AccountOwner, LeaderBoardItemValue>, owner: AccountOwner,
                         first: LeaderBoardItemValue, second: LeaderBoardItemValue)
    ensures values[owner := first][owner := second] == values[owner := second]
    ensures ValueIn(values[owner := first][owner := second], owner) == second
  {
  }

  /** Never-updated owners read as the default item. */
  lemma UnknownOwnerReadsDefault(values: map<AccountOwner, LeaderBoardItemValue>, owner: AccountOwner)
    requires owner !in values
    ensures ValueIn(values, owner) == LeaderBoardItemValue(0, 0)
  {
  }

  class LeaderBoardState {
    var values: map<AccountOwner, LeaderBoardItemValue>
    var topOwners: map<AccountOwner, Amount>
    var topK: U8

    /** The owners whose entries the storage layer fails to write (a
        serialization fault, reported as a view error). */
    const faultyKeys: set<AccountOwner>

    /** An empty state over a storage layer that fails on `faultyKeys`. */
    constructor (faultyKeys: set<AccountOwner>)
      ensures values == map[] && topOwners == map[] && topK == 0
      ensures this.faultyKeys == faultyKeys
    {
      values, topOwners, topK := map[], map[], 0;
      this.faultyKeys := faultyKeys;
    }

    /** `instantiate`: sets the `top_k` register and nothing else. */
    method Instantiate(argument: InstantiationArgument)
      modifies this
      ensures topK == argument.topK
      ensures values == old(values) && topOwners == old(topOwners)
      ensures InstantiationArgument() == argument && TopK() == argument.topK
    {
      topK := argument.topK;
    }

    /** `instantiation_argument`: rebuilt from the `top_k` register. */
    function InstantiationArgument(): (argument: InstantiationArgument)
      reads this
      ensures argument.topK == TopK()
    {
      LeaderBoardAbi.InstantiationArgument(topK)
    }

    /** `top_k`: the register as last set by `Instantiate`. */
    function TopK(): (k: U8)
      reads this
      ensures k == topK
    {
      topK
    }

    /** `value`: the recorded item of `owner`, or the default one. */
    function Value(owner: AccountOwner): (item: LeaderBoardItemValue)
      reads this
      ensures owner in values ==> item == values[owner]
      ensures owner !in values ==> item == DEFAULT_ITEM
    {
      ValueIn(values, owner)
    }

    /**
     * `update_value`: records `{value, timestamp}` for `owner`, replacing
     * what was there; when the storage layer refuses the write, nothing
     * changes and the error is returned.
     */
    method UpdateValue(owner: AccountOwner, value: Amount, timestamp: Timestamp) returns (r: Result<(), StateError>)
      modifies this
      ensures r.Ok? <==> owner !in faultyKeys
      ensures r.Err? ==> r.error == ViewError && unchanged(this)
      ensures values == if r.Ok? then old(values)[owner := LeaderBoardItemValue(value, timestamp)] else old(values)
      ensures topK == old(topK) && topOwners == old(topOwners)
      ensures r.Ok? ==> Value(owner) == LeaderBoardItemValue(value, timestamp)
      ensures forall other :: other != owner ==> Value(other) == old(Value(other))
    {
      if owner in faultyKeys {
        return Err(ViewError);
      }
      values := values[owner := LeaderBoardItemValue(value, timestamp)];
      r := Ok(());
    }
  }
}
