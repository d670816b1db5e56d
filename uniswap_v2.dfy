/** The handlers of the Uniswap V2 pair data source: Sync and Swap on the pair
    itself, and Transfer and Approval on the pair's liquidity token, whose token
    address is the address of the emitting pair. */
module UniswapV2 {
  import opened Identifiers
  import opened Decimal
  import opened Schema
  import opened Erc20
  import opened Transfers
  import opened Uniswap

  /** The pair after a Sync: it holds exactly the event's reserves, prices that
      follow them, the total supply read from the pair contract and the event's
      stamp, and keeps its identity, tokens and creation stamp. */
  function SyncedPair(pair: Pair, reserve0: int, reserve1: int, ev: Event, chain: Chain): (r: Pair)
    ensures r.reserve0 == FromWad(reserve0) && r.reserve1 == FromWad(reserve1)
    ensures PricesConsistent(r)
    ensures r.totalSupply == FromWad(chain.totalSupply(ev.address))
    ensures r.modified == StampOf(ev)
    ensures r.id == pair.id && r.address == pair.address && r.created == pair.created
    ensures r.token0 == pair.token0 && r.token1 == pair.token1
  {
    var r0, r1 := FromWad(reserve0), FromWad(reserve1);
    pair.(reserve0 := r0, reserve1 := r1,
          token0Price := GuardedRatio(r0, r1), token1Price := GuardedRatio(r1, r0),
          totalSupply := FromWad(chain.totalSupply(ev.address)), modified := StampOf(ev))
  }

  /** The pairs table after a Sync emitted by the pair at `ev.address`: the
      loaded or created pair, synced; no other pair changes. */
  function SyncedPairs(pairs: map<string, Pair>, reserve0: int, reserve1: int, ev: Event, chain: Chain)
    : (r: map<string, Pair>)
    ensures r.Keys == pairs.Keys + {ev.address}
    ensures forall k | k in pairs && k != ev.address :: r[k] == pairs[k]
  {
    pairs[ev.address := SyncedPair(LoadedPair(pairs, ev.address, ev, chain), reserve0, reserve1, ev, chain)]
  }

  /** The record a Sync appends. */
  function SyncRecordOf(reserve0: int, reserve1: int, ev: Event): SyncRecord {
    SyncRecord(ev.uid, FromWad(reserve0), FromWad(reserve1), ev.address, StampOf(ev))
  }

  /** A Sync keeps every stored pair keyed by its address with consistent prices. */
  lemma SyncKeepsPairsValid(pairs: map<string, Pair>, reserve0: int, reserve1: int, ev: Event, chain: Chain)
    requires PairsValid(pairs)
    ensures PairsValid(SyncedPairs(pairs, reserve0, reserve1, ev, chain))
  {
    LoadedPairValid(pairs, ev.address, ev, chain);
  }

  /** The reserves are overwritten, not accumulated: a Sync replayed over its
      own result changes nothing. */
  lemma SyncIdempotent(pairs: map<string, Pair>, reserve0: int, reserve1: int, ev: Event, chain: Chain)
    ensures var once := SyncedPairs(pairs, reserve0, reserve1, ev, chain);
      SyncedPairs(once, reserve0, reserve1, ev, chain) == once
  {
  }

  /** `handleSync`: load or create the pair, overwrite reserves, prices, total
      supply and modified stamp, save it, then append one sync record. */
  method HandleSync(st: Store, reserve0: int, reserve1: int, ev: Event, chain: Chain)
    modifies st`pairs, st`syncs
    ensures st.pairs == SyncedPairs(old(st.pairs), reserve0, reserve1, ev, chain)
    ensures st.syncs == old(st.syncs)[ev.uid := SyncRecordOf(reserve0, reserve1, ev)]
  {
    ghost var pairs0 := st.pairs;
    ghost var loaded := LoadedPair(st.pairs, ev.address, ev, chain);
    var pair := GetOrCreateUniPool(st, ev.address, ev, chain);
    assert pair == loaded;
    assert st.pairs == pairs0 || st.pairs == pairs0[ev.address := pair];
    var newReserve0 := FromWad(reserve0);
    var newReserve1 := FromWad(reserve1);
    var token0Price, token1Price;
    if newReserve1 != ZERO {
      token0Price := newReserve0 / newReserve1;
    } else {
      token0Price := ZERO;
    }
    if newReserve0 != ZERO {
      token1Price := newReserve1 / newReserve0;
    } else {
      token1Price := ZERO;
    }
    var totalSupply := FromWad(chain.totalSupply(ev.address));
    pair := pair.(reserve0 := newReserve0, reserve1 := newReserve1, token0Price := token0Price,
                  token1Price := token1Price, totalSupply := totalSupply, modified := StampOf(ev));
    assert pair == SyncedPair(loaded, reserve0, reserve1, ev, chain);
    st.pairs := st.pairs[ev.address := pair];
    assert st.pairs == pairs0[ev.address := pair];
    var sync := SyncRecord(ev.uid, FromWad(reserve0), FromWad(reserve1), ev.address, StampOf(ev));
    st.syncs := st.syncs[ev.uid := sync];
  }

  /** The record a Swap appends. */
  function SwapRecordOf(amount0In: int, amount1In: int, amount0Out: int, amount1Out: int, sender: Address,
                        ev: Event): SwapRecord
  {
    SwapRecord(ev.uid, ev.address, FromWad(amount0In), FromWad(amount1In), FromWad(amount0Out),
               FromWad(amount1Out), sender, StampOf(ev))
  }

  /** `handleSwap`: only a swap record is inserted under the event's uid; the
      pair and every other table stay as they were. */
  method HandleSwap(st: Store, amount0In: int, amount1In: int, amount0Out: int, amount1Out: int,
                    sender: Address, ev: Event)
    modifies st`swaps
    ensures st.swaps == old(st.swaps)[ev.uid := SwapRecordOf(amount0In, amount1In, amount0Out, amount1Out, sender, ev)]
  {
    var swap := SwapRecord(ev.uid, ev.address, FromWad(amount0In), FromWad(amount1In), FromWad(amount0Out),
                           FromWad(amount1Out), sender, StampOf(ev));
    st.swaps := st.swaps[ev.uid := swap];
  }

  /** `handleTransfer` of the pair's liquidity token: the shared reconciliation,
      with the emitting pair as the token and the wad value as a decimal amount. */
  method HandleTransfer(st: Store, from: Address, to: Address, value: int, ev: Event, chain: Chain)
    returns (outcome: Outcome)
    modifies st`tokens, st`balances, st`allowances, st`transfers
    ensures var before := Tables(old(st.tokens), old(st.balances), old(st.allowances), old(st.transfers));
      TransferEffect(before, ev.address, from, to, FromWad(value), ev, chain)
      == (Tables(st.tokens, st.balances, st.allowances, st.transfers), outcome)
  {
    outcome := Transfer(st, ev.address, from, to, FromWad(value), ev, chain);
  }

  /** `handleApproval` of the pair's liquidity token. */
  method HandleApproval(st: Store, owner: Address, spender: Address, value: int, ev: Event)
    modifies st`balances, st`allowances
    ensures st.allowances == Approved(old(st.allowances), ev.address, owner, spender, value, ev)
    ensures st.balances == BalancesForAllowance(old(st.balances), old(st.allowances), owner, ev.address, spender, ev)
  {
    Approve(st, ev.address, owner, spender, value, ev);
  }
}
