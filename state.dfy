/**
 * The persistent escrow ledger CHANNEL_STATE: for every (channel, denomination
 * key) pair, how much is still in flight and how much was ever sent.
 * The ledger primitive lives in the state module of the repository, which is
 * not part of this model; its checked-add behaviour is stated here.
 */
module State {
  import opened Wrappers
  import opened Amounts
  import opened Messages

  /** ChannelInfo as registered when a channel is opened. */
  datatype ChannelInfo = ChannelInfo(id: string, counterpartyEndpoint: string, connectionId: string)

  /** Config */
  datatype Config = Config(defaultTimeout: U64)

  /** ChannelState: the counters of one (channel, denomination key) entry. */
  datatype ChannelState = ChannelState(outstanding: Uint128, totalSent: Uint128)

  type Key = (string, string)

  type Ledger = map<Key, ChannelState>

  /** The ledger invariant: nothing is outstanding that was not sent. */
  predicate Reconciled(ledger: Ledger)
  {
    forall k :: k in ledger ==> ledger[k].outstanding <= ledger[k].totalSent
  }

  /** `may_load(..).unwrap_or_default()`: an entry with no history reads as zero. */
  function Entry(ledger: Ledger, k: Key): ChannelState
  {
    if k in ledger then ledger[k] else ChannelState(0, 0)
  }

  /**
   * `increase_channel_balance`: add `amount` to both counters of the entry,
   * creating it at zero if needed, and fail without any change if either
   * counter would leave u128.
   */
  function IncreaseChannelBalance(ledger: Ledger, channel: string, denom: string, amount: Uint128)
    : (r: Result<Ledger, ContractError>)
    ensures var e := Entry(ledger, (channel, denom));
      r.Success? <==> e.outstanding + amount < U128Bound && e.totalSent + amount < U128Bound
    ensures r.Failure? ==> r.error == Overflow
    ensures r.Success? ==> r.value.Keys == ledger.Keys + {(channel, denom)}
    ensures r.Success? ==> Entry(r.value, (channel, denom)).outstanding == Entry(ledger, (channel, denom)).outstanding + amount
    ensures r.Success? ==> Entry(r.value, (channel, denom)).totalSent == Entry(ledger, (channel, denom)).totalSent + amount
    ensures r.Success? ==> forall k :: k != (channel, denom) ==> Entry(r.value, k) == Entry(ledger, k)
  {
    var e := Entry(ledger, (channel, denom));
    if e.outstanding + amount < U128Bound && e.totalSent + amount < U128Bound then
      Success(ledger[(channel, denom) := ChannelState(e.outstanding + amount, e.totalSent + amount)])
    else
      Failure(Overflow)
  }

  /** An increase keeps the ledger reconciled and never lowers a total. */
  lemma IncreasePreservesReconciled(ledger: Ledger, channel: string, denom: string, amount: Uint128)
    requires Reconciled(ledger)
    requires IncreaseChannelBalance(ledger, channel, denom, amount).Success?
    ensures Reconciled(IncreaseChannelBalance(ledger, channel, denom, amount).value)
    ensures forall k :: Entry(ledger, k).totalSent <= Entry(IncreaseChannelBalance(ledger, channel, denom, amount).value, k).totalSent
  {
  }

  /** On a reconciled ledger only the total can overflow: the check is `total_sent + amount < 2^128`. */
  lemma OverflowIsDecidedByTotal(ledger: Ledger, channel: string, denom: string, amount: Uint128)
    requires Reconciled(ledger)
    ensures IncreaseChannelBalance(ledger, channel, denom, amount).Success?
        <==> Entry(ledger, (channel, denom)).totalSent + amount < U128Bound
  {
  }

  function Sum(amounts: seq<Uint128>): nat
  {
    if amounts == [] then 0 else amounts[0] + Sum(amounts[1..])
  }

  /** A run of transfers booked one after another on the same entry, stopping at the first failure. */
  function IncreaseAll(ledger: Ledger, channel: string, denom: string, amounts: seq<Uint128>)
    : Result<Ledger, ContractError>
    decreases |amounts|
  {
    if amounts == [] then Success(ledger)
    else
      var r := IncreaseChannelBalance(ledger, channel, denom, amounts[0]);
      if r.Failure? then r else IncreaseAll(r.value, channel, denom, amounts[1..])
  }

  /**
   * Ledger monotonicity: a run of increases succeeds exactly when the total
   * stays within u128, and then each counter of the entry grows by the sum
   * of the amounts, the ledger stays reconciled, and no other entry moves.
   */
  lemma {:induction false} IncreaseAllSums(ledger: Ledger, channel: string, denom: string, amounts: seq<Uint128>)
    requires Reconciled(ledger)
    ensures IncreaseAll(ledger, channel, denom, amounts).Success?
        <==> Entry(ledger, (channel, denom)).totalSent + Sum(amounts) < U128Bound
    ensures IncreaseAll(ledger, channel, denom, amounts).Success? ==>
      var after := IncreaseAll(ledger, channel, denom, amounts).value;
      && Reconciled(after)
      && Entry(after, (channel, denom)).totalSent == Entry(ledger, (channel, denom)).totalSent + Sum(amounts)
      && Entry(after, (channel, denom)).outstanding == Entry(ledger, (channel, denom)).outstanding + Sum(amounts)
      && forall k :: k != (channel, denom) ==> Entry(after, k) == Entry(ledger, k)
    decreases |amounts|
  {
    if amounts != [] {
      var r := IncreaseChannelBalance(ledger, channel, denom, amounts[0]);
      OverflowIsDecidedByTotal(ledger, channel, denom, amounts[0]);
      if r.Success? {
        IncreasePreservesReconciled(ledger, channel, denom, amounts[0]);
        IncreaseAllSums(r.value, channel, denom, amounts[1..]);
      }
    }
  }
}
