/**
 * Aged credit chunks and their balance (`AgeAmounts::sum`). The v1 crate's
 * `AgeAmount`, `AgeAmounts` and `sum` are the same code as the v2 crate's and
 * are modelled by this one module.
 */
module AgeAmounts {
  import opened Linera

  /** One credit chunk: an amount and the time at which it expires. */
  datatype AgeAmount = AgeAmount(amount: Amount, expired: Timestamp)

  /** The chunks of one account, oldest first. */
  datatype AgeAmounts = AgeAmounts(amounts: seq<AgeAmount>)

  /** `sum` either returns the total or panics in `unwrap`. */
  datatype Outcome<+T> = Returned(value: T) | Panicked

  /** The arithmetic total of the chunk amounts, without any bound. */
  function Total(chunks: seq<AgeAmount>): nat
  {
    if chunks == [] then 0 else chunks[0].amount + Total(chunks[1..])
  }

  /** Appending one chunk adds exactly its amount to the total. */
  lemma {:induction false} TotalAppend(chunks: seq<AgeAmount>, chunk: AgeAmount)
    ensures Total(chunks + [chunk]) == Total(chunks) + chunk.amount
  {
    if chunks != [] {
      assert (chunks + [chunk])[1..] == chunks[1..] + [chunk];
      TotalAppend(chunks[1..], chunk);
    }
  }

  /** A prefix never totals more than the whole list: amounts are never negative. */
  lemma {:induction false} TotalPrefixBound(chunks: seq<AgeAmount>, k: nat)
    requires k <= |chunks|
    ensures Total(chunks[..k]) <= Total(chunks)
  {
    if k > 0 {
      assert chunks[..k][1..] == chunks[1..][..k - 1];
      TotalPrefixBound(chunks[1..], k - 1);
    }
  }

  /** Only the amounts count: two lists with the same amounts, whatever their
      expiry times, have the same total. */
  lemma {:induction false} TotalIgnoresExpiry(chunks: seq<AgeAmount>, others: seq<AgeAmount>)
    requires |chunks| == |others|
    requires forall i :: 0 <= i < |chunks| ==> chunks[i].amount == others[i].amount
    ensures Total(chunks) == Total(others)
  {
    if chunks != [] {
      assert chunks[0].amount == others[0].amount;
      forall i | 0 <= i < |chunks[1..]|
        ensures chunks[1..][i].amount == others[1..][i].amount
      {
        assert chunks[1..][i] == chunks[i + 1] && others[1..][i] == others[i + 1];
      }
      TotalIgnoresExpiry(chunks[1..], others[1..]);
    }
  }

  /**
   * `AgeAmounts::sum`: folds the amounts left to right with `try_add`, and
   * panics as soon as the running total leaves the `Amount` range. Because
   * amounts are never negative, that happens exactly when the whole total
   * does; otherwise the result is the total. The chunk list is a value and is
   * not changed.
   */
  method Sum(chunks: AgeAmounts) returns (r: Outcome<Amount>)
    ensures r.Returned? <==> Total(chunks.amounts) <= MAX_AMOUNT
    ensures r.Returned? ==> r.value == Total(chunks.amounts)
    ensures chunks.amounts == [] ==> r == Returned(0)
  {
    var amounts := chunks.amounts;
    var sum: Amount := 0;
    var i := 0;
    while i < |amounts|
      invariant 0 <= i <= |amounts|
      invariant sum == Total(amounts[..i])
    {
      assert amounts[..i + 1] == amounts[..i] + [amounts[i]];
      TotalAppend(amounts[..i], amounts[i]);
      var next := TryAdd(sum, amounts[i].amount);
      if next.None? {
        TotalPrefixBound(amounts, i + 1);
        return Panicked;
      }
      sum := next.value;
      i := i + 1;
    }
    assert amounts[..i] == amounts;
    return Returned(sum);
  }
}
