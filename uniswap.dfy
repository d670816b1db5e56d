/** Uniswap V2 pair records: creation from contract reads, and the reserve-ratio
    prices that are guarded to zero when the denominator is zero. */
module Uniswap {
  import opened Identifiers
  import opened Decimal
  import opened Schema

  /** `numerator.div(denominator)` when the denominator is non-zero, else ZERO. */
  function GuardedRatio(numerator: real, denominator: real): (r: real)
    ensures denominator != ZERO ==> r * denominator == numerator
    ensures denominator == ZERO ==> r == ZERO
  {
    if denominator != ZERO then numerator / denominator else ZERO
  }

  /** The prices of a pair agree with its reserves under the guarded-ratio rule. */
  predicate PricesConsistent(p: Pair) {
    && p.token0Price == GuardedRatio(p.reserve0, p.reserve1)
    && p.token1Price == GuardedRatio(p.reserve1, p.reserve0)
  }

  /** Every stored pair is keyed by its own address and has consistent prices. */
  predicate PairsValid(pairs: map<string, Pair>) {
    forall id | id in pairs :: pairs[id].id == id && pairs[id].address == id && PricesConsistent(pairs[id])
  }

  /** When both reserves are non-zero, the two prices are reciprocal; when either
      is zero, both prices are zero. */
  lemma PricesReciprocal(p: Pair)
    requires PricesConsistent(p)
    ensures p.reserve0 != ZERO && p.reserve1 != ZERO ==> p.token0Price * p.token1Price == ONE
    ensures p.reserve0 == ZERO || p.reserve1 == ZERO ==> p.token0Price == ZERO && p.token1Price == ZERO
  {
    if p.reserve0 != ZERO && p.reserve1 != ZERO {
      var x, y := p.reserve0, p.reserve1;
      assert p.token0Price == x / y && p.token1Price == y / x;
      assert (x / y) * (y / x) == (x * y) / (y * x);
    }
  }

  /** The pair record `getOrCreateUniPool` creates: keyed by the pair address,
      tokens, reserves and total supply read from the pair contract, and created
      and modified by the triggering event. */
  function NewPair(pairAddress: Address, ev: Event, chain: Chain): (r: Pair)
    ensures r.id == pairAddress && r.address == pairAddress
    ensures r.token0 == chain.token0(pairAddress) && r.token1 == chain.token1(pairAddress)
    ensures r.reserve0 == FromWad(chain.reserves(pairAddress).0)
    ensures r.reserve1 == FromWad(chain.reserves(pairAddress).1)
    ensures r.totalSupply == FromWad(chain.totalSupply(pairAddress))
    ensures r.created == r.modified == StampOf(ev)
    ensures PricesConsistent(r)
  {
    var reserve0 := FromWad(chain.reserves(pairAddress).0);
    var reserve1 := FromWad(chain.reserves(pairAddress).1);
    Pair(pairAddress, pairAddress, chain.token0(pairAddress), chain.token1(pairAddress), reserve0, reserve1,
         GuardedRatio(reserve0, reserve1), GuardedRatio(reserve1, reserve0),
         FromWad(chain.totalSupply(pairAddress)), StampOf(ev), StampOf(ev))
  }

  /** What `getOrCreateUniPool` yields: the stored pair, else a new one. */
  function LoadedPair(pairs: map<string, Pair>, pairAddress: Address, ev: Event, chain: Chain): Pair {
    if pairAddress in pairs then pairs[pairAddress] else NewPair(pairAddress, ev, chain)
  }

  /** Loading keeps the pairs table valid and yields a record keyed by the pair
      address with consistent prices. */
  lemma LoadedPairValid(pairs: map<string, Pair>, pairAddress: Address, ev: Event, chain: Chain)
    requires PairsValid(pairs)
    ensures var p := LoadedPair(pairs, pairAddress, ev, chain);
      p.id == pairAddress && p.address == pairAddress && PricesConsistent(p)
    ensures PairsValid(pairs[pairAddress := LoadedPair(pairs, pairAddress, ev, chain)])
  {
  }

  /** `getOrCreateUniPool`: an existing pair is returned unchanged and nothing is
      read from the contract; otherwise the new pair is built field by field from
      contract reads and saved. */
  method GetOrCreateUniPool(st: Store, pairAddress: Address, ev: Event, chain: Chain) returns (pair: Pair)
    modifies st`pairs
    ensures pairAddress in old(st.pairs) ==> pair == old(st.pairs)[pairAddress] && st.pairs == old(st.pairs)
    ensures pairAddress !in old(st.pairs) ==>
      pair == NewPair(pairAddress, ev, chain) && st.pairs == old(st.pairs)[pairAddress := pair]
  {
    if pairAddress in st.pairs {
      pair := st.pairs[pairAddress];
      return;
    }
    var reserves := chain.reserves(pairAddress);
    var reserve0 := FromWad(reserves.0);
    var reserve1 := FromWad(reserves.1);
    var token0Price, token1Price;
    if reserve1 != ZERO {
      token0Price := reserve0 / reserve1;
    } else {
      token0Price := ZERO;
    }
    if reserve0 != ZERO {
      token1Price := reserve1 / reserve0;
    } else {
      token1Price := ZERO;
    }
    pair := Pair(pairAddress, pairAddress, chain.token0(pairAddress), chain.token1(pairAddress),
                 reserve0, reserve1, token0Price, token1Price,
                 FromWad(chain.totalSupply(pairAddress)), StampOf(ev), StampOf(ev));
    st.pairs := st.pairs[pairAddress := pair];
  }
}
