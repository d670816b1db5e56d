/** The handlers of the system coin data source. They apply the same Transfer
    and Approval reconciliation as the pair's liquidity token, but every balance,
    allowance and transfer id is built from the data source's own address, not
    from the address of the emitting contract. */
module Coin {
  import opened Identifiers
  import opened Decimal
  import opened Schema
  import opened Erc20
  import opened Transfers

  /** `handleTransfer`: the shared reconciliation with the data-source address as
      the token and the wad amount as a decimal. */
  method HandleTransfer(st: Store, coinAddress: Address, src: Address, dst: Address, amount: int, ev: Event,
                        chain: Chain)
    returns (outcome: Outcome)
    modifies st`tokens, st`balances, st`allowances, st`transfers
    ensures var before := Tables(old(st.tokens), old(st.balances), old(st.allowances), old(st.transfers));
      TransferEffect(before, coinAddress, src, dst, FromWad(amount), ev, chain)
      == (Tables(st.tokens, st.balances, st.allowances, st.transfers), outcome)
  {
    outcome := Transfer(st, coinAddress, src, dst, FromWad(amount), ev, chain);
  }

  /** Only balances of the coin held by `src` or `dst` change, whatever the
      emitting contract: the ids are built from the data-source address. */
  lemma {:induction false} CoinTransferUsesDataSource(before: Tables, coinAddress: Address, src: Address, dst: Address,
                                                      amount: int, ev: Event, chain: Chain)
    ensures var (after, outcome) := TransferEffect(before, coinAddress, src, dst, FromWad(amount), ev, chain);
      && (forall k | BalanceOf(after.balances, k) != BalanceOf(before.balances, k) ::
            k == BalanceId(src, coinAddress) || k == BalanceId(dst, coinAddress))
      && (outcome == Done ==> ev.uid in after.transfers && after.transfers[ev.uid].tokenAddress == coinAddress)
  {
    var (after, outcome) := TransferEffect(before, coinAddress, src, dst, FromWad(amount), ev, chain);
    TransferAborts(before, coinAddress, src, dst, FromWad(amount), ev, chain);
    TransferMoves(before, coinAddress, src, dst, FromWad(amount), ev, chain);
    TransferRecorded(before, coinAddress, src, dst, FromWad(amount), ev, chain);
    forall k | BalanceOf(after.balances, k) != BalanceOf(before.balances, k)
      ensures k == BalanceId(src, coinAddress) || k == BalanceId(dst, coinAddress)
    {
      assert outcome == Done;
      assert Credit(k, coinAddress, src, dst, FromWad(amount)) != 0.0;
    }
  }

  /** `handleApproval`: the (`src`, `guy`) allowance of the coin is overwritten
      with the approved amount. */
  method HandleApproval(st: Store, coinAddress: Address, src: Address, guy: Address, amount: int, ev: Event)
    modifies st`balances, st`allowances
    ensures st.allowances == Approved(old(st.allowances), coinAddress, src, guy, amount, ev)
    ensures st.balances == BalancesForAllowance(old(st.balances), old(st.allowances), src, coinAddress, guy, ev)
  {
    Approve(st, coinAddress, src, guy, amount, ev);
  }
}
