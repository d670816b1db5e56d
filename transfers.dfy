/** The Transfer and Approval reconciliation shared by the pair handlers and the
    coin handlers, parameterised by the address of the token whose balances move. */
module Transfers {
  import opened Identifiers
  import opened Decimal
  import opened Schema
  import opened Sums
  import opened Erc20

  /** The tables a Transfer or Approval event touches. */
  datatype Tables = Tables(
    tokens: map<string, Token>,
    balances: map<string, Balance>,
    allowances: map<string, Allowance>,
    transfers: map<string, TransferRecord>)

  /** The balance amount stored under an id; zero when there is no record. */
  function BalanceOf(balances: map<string, Balance>, id: string): real {
    if id in balances then balances[id].balance else ZERO
  }

  /** What `getOrCreateERC20` yields for the token. */
  function LoadedToken(tokens: map<string, Token>, tokenAddress: Address, chain: Chain): Token {
    if tokenAddress in tokens then tokens[tokenAddress] else NewToken(tokenAddress, chain)
  }

  /** A balance counts toward circulation when it is held in the token by a
      non-zero address. */
  function SupplyWeight(tokenAddress: Address): Balance -> real {
    (b: Balance) => if b.tokenAddress == tokenAddress && b.address != ZeroAddress then b.balance else 0.0
  }

  /** The sum of the balances of every non-zero holder of the token. */
  ghost function Circulating(balances: map<string, Balance>, tokenAddress: Address): real {
    Total(balances, SupplyWeight(tokenAddress))
  }

  /** The amount a transfer adds to, and takes from, the balance stored under k. */
  function Credit(k: string, tokenAddress: Address, source: Address, destination: Address, amount: real): real {
    (if destination != ZeroAddress && k == BalanceId(destination, tokenAddress) then amount else 0.0)
    - (if source != ZeroAddress && k == BalanceId(source, tokenAddress) then amount else 0.0)
  }

  /** Every balance amount changes by what the transfer credits or debits under
      its id, and by nothing else. */
  ghost predicate Moved(before: map<string, Balance>, after: map<string, Balance>, tokenAddress: Address,
                        source: Address, destination: Address, amount: real)
  {
    forall k :: BalanceOf(after, k) == BalanceOf(before, k) + Credit(k, tokenAddress, source, destination, amount)
  }

  /** Replacing a record by one with the same id, holder and token keeps the
      table keyed. */
  lemma KeyedUpdate(balances: map<string, Balance>, allowances: map<string, Allowance>, b: Balance)
    requires LedgerValid(balances, allowances)
    requires b.id == BalanceId(b.address, b.tokenAddress)
    ensures LedgerValid(balances[b.id := b], allowances)
  {
  }

  /** Under a keyed table, a key present before and after holds a record of the
      same holder and token, so it weighs the same when its amount is the same. */
  lemma SameAmountSameWeight(before: map<string, Balance>, after: map<string, Balance>, tokenAddress: Address, k: string)
    requires BalancesKeyed(before) && BalancesKeyed(after)
    requires k in before ==> k in after
    requires BalanceOf(after, k) == BalanceOf(before, k)
    ensures Weight(after, k, SupplyWeight(tokenAddress)) == Weight(before, k, SupplyWeight(tokenAddress))
  {
    if k in before {
      var b, a := before[k], after[k];
      BalanceIdInjective(b.address, b.tokenAddress, a.address, a.tokenAddress);
    }
  }

  /** The weight of a holder's record is its amount, and nothing for the zero
      address. */
  lemma HolderWeight(balances: map<string, Balance>, holder: Address, tokenAddress: Address)
    requires BalancesKeyed(balances)
    ensures Weight(balances, BalanceId(holder, tokenAddress), SupplyWeight(tokenAddress))
            == if holder != ZeroAddress then BalanceOf(balances, BalanceId(holder, tokenAddress)) else 0.0
  {
    if BalanceId(holder, tokenAddress) in balances {
      KeyedRecord(balances, holder, tokenAddress);
    }
  }

  /** The weight a transfer adds under the id of a holder: what it credits there,
      unless the holder is the zero address. */
  lemma HolderWeightChange(before: map<string, Balance>, after: map<string, Balance>, tokenAddress: Address,
                           source: Address, destination: Address, amount: real, holder: Address)
    requires BalancesKeyed(before) && BalancesKeyed(after)
    requires Moved(before, after, tokenAddress, source, destination, amount)
    ensures var k := BalanceId(holder, tokenAddress);
      Weight(after, k, SupplyWeight(tokenAddress)) - Weight(before, k, SupplyWeight(tokenAddress))
      == if holder != ZeroAddress then Credit(k, tokenAddress, source, destination, amount) else 0.0
  {
    HolderWeight(after, holder, tokenAddress);
    HolderWeight(before, holder, tokenAddress);
  }

  /** The sum of the non-zero holders' balances moves by what the transfer credits
      minus what it debits, each counted only for a non-zero holder. */
  lemma MovedConserves(before: map<string, Balance>, after: map<string, Balance>, tokenAddress: Address,
                       source: Address, destination: Address, amount: real)
    requires BalancesKeyed(before) && BalancesKeyed(after)
    requires before.Keys <= after.Keys
    requires Moved(before, after, tokenAddress, source, destination, amount)
    ensures Circulating(after, tokenAddress) - Circulating(before, tokenAddress)
            == (if destination != ZeroAddress then amount else 0.0) - (if source != ZeroAddress then amount else 0.0)
  {
    var w := SupplyWeight(tokenAddress);
    var dstId := BalanceId(destination, tokenAddress);
    var srcId := BalanceId(source, tokenAddress);
    if dstId == srcId {
      BalanceIdInjective(destination, tokenAddress, source, tokenAddress);
      forall k ensures Weight(before, k, w) == Weight(after, k, w) {
        assert BalanceOf(after, k) == BalanceOf(before, k);
        SameAmountSameWeight(before, after, tokenAddress, k);
      }
      TotalSame(before, after, w);
    } else {
      // The middle table: the destination's record as after, everything else as before.
      var middle := if dstId in after then before[dstId := after[dstId]] else before;
      assert Weight(middle, dstId, w) == Weight(after, dstId, w);
      assert Weight(middle, srcId, w) == Weight(before, srcId, w);
      TotalChange(before, middle, w, dstId);
      forall k | k != srcId
        ensures Weight(middle, k, w) == Weight(after, k, w)
      {
        if k != dstId {
          assert BalanceOf(after, k) == BalanceOf(before, k);
          SameAmountSameWeight(before, after, tokenAddress, k);
        }
      }
      TotalChange(middle, after, w, srcId);
      HolderWeightChange(before, after, tokenAddress, source, destination, amount, destination);
      HolderWeightChange(before, after, tokenAddress, source, destination, amount, source);
    }
  }

  /** A holder's record after a transfer adjusts it by `delta`: created at zero
      when missing, then moved by `delta` and stamped with the event. */
  function Adjusted(balances: map<string, Balance>, holder: Address, tokenAddress: Address, delta: real, ev: Event)
    : (r: map<string, Balance>)
    ensures BalanceId(holder, tokenAddress) in r
    ensures r.Keys == balances.Keys + {BalanceId(holder, tokenAddress)}
    ensures BalanceOf(r, BalanceId(holder, tokenAddress)) == BalanceOf(balances, BalanceId(holder, tokenAddress)) + delta
    ensures r[BalanceId(holder, tokenAddress)].modified == StampOf(ev)
    ensures forall k | k in balances && k != BalanceId(holder, tokenAddress) :: r[k] == balances[k]
    ensures forall k | k != BalanceId(holder, tokenAddress) :: BalanceOf(r, k) == BalanceOf(balances, k)
  {
    var id := BalanceId(holder, tokenAddress);
    var loaded := WithBalance(balances, holder, tokenAddress, ev);
    var b := loaded[id];
    loaded[id := b.(balance := b.balance + delta, modified := StampOf(ev))]
  }

  /** Adjusting a holder's record keeps the ledger valid. */
  lemma AdjustedValid(balances: map<string, Balance>, allowances: map<string, Allowance>, holder: Address,
                      tokenAddress: Address, delta: real, ev: Event)
    requires LedgerValid(balances, allowances)
    ensures LedgerValid(Adjusted(balances, holder, tokenAddress, delta, ev), allowances)
  {
    var id := BalanceId(holder, tokenAddress);
    var loaded := WithBalance(balances, holder, tokenAddress, ev);
    if id in balances {
      KeyedRecord(balances, holder, tokenAddress);
    }
    assert LedgerValid(loaded, allowances);
    KeyedUpdate(loaded, allowances, loaded[id].(balance := loaded[id].balance + delta, modified := StampOf(ev)));
  }

  /** One `updateAllowance(token, allowed, source)` on both tables it writes. */
  function Resync(tables: (map<string, Balance>, map<string, Allowance>), tokenAddress: Address, allowedAddress: Address,
                  source: Address, ev: Event, chain: Chain): (map<string, Balance>, map<string, Allowance>)
  {
    (BalancesForAllowance(tables.0, tables.1, allowedAddress, tokenAddress, source, ev),
     SyncedAllowances(tables.1, tokenAddress, allowedAddress, source, ev, chain))
  }

  /** The three allowance resyncs a transfer runs, in order: the destination,
      the emitting contract and the transaction sender each as owner, with the
      transfer source as spender. They add zero balances at most, and leave every
      existing balance as it was. */
  function Resynced(balances: map<string, Balance>, allowances: map<string, Allowance>, tokenAddress: Address,
                    source: Address, destination: Address, ev: Event, chain: Chain)
    : (map<string, Balance>, map<string, Allowance>)
  {
    var once := Resync((balances, allowances), tokenAddress, destination, source, ev, chain);
    var twice := Resync(once, tokenAddress, ev.address, source, ev, chain);
    Resync(twice, tokenAddress, ev.txFrom, source, ev, chain)
  }

  /** A resync keeps every balance record, and adds only zero ones. */
  lemma ResyncKeepsBalances(tables: (map<string, Balance>, map<string, Allowance>), tokenAddress: Address,
                            allowedAddress: Address, source: Address, ev: Event, chain: Chain)
    ensures var r := Resync(tables, tokenAddress, allowedAddress, source, ev, chain).0;
      && tables.0.Keys <= r.Keys
      && (forall k | k in tables.0 :: r[k] == tables.0[k])
      && forall k :: BalanceOf(r, k) == BalanceOf(tables.0, k)
  {
    var r := Resync(tables, tokenAddress, allowedAddress, source, ev, chain).0;
    forall k ensures BalanceOf(r, k) == BalanceOf(tables.0, k) {
      if k in r && k !in tables.0 {
        assert r[k] == NewBalance(allowedAddress, tokenAddress, ev);
      }
    }
  }

  /** The three resyncs keep every balance record, and add only zero ones. */
  lemma ResyncedKeepsBalances(balances: map<string, Balance>, allowances: map<string, Allowance>, tokenAddress: Address,
                              source: Address, destination: Address, ev: Event, chain: Chain)
    ensures var r := Resynced(balances, allowances, tokenAddress, source, destination, ev, chain).0;
      && balances.Keys <= r.Keys
      && (forall k | k in balances :: r[k] == balances[k])
      && forall k :: BalanceOf(r, k) == BalanceOf(balances, k)
  {
    var once := Resync((balances, allowances), tokenAddress, destination, source, ev, chain);
    var twice := Resync(once, tokenAddress, ev.address, source, ev, chain);
    ResyncKeepsBalances((balances, allowances), tokenAddress, destination, source, ev, chain);
    ResyncKeepsBalances(once, tokenAddress, ev.address, source, ev, chain);
    ResyncKeepsBalances(twice, tokenAddress, ev.txFrom, source, ev, chain);
  }

  /** Resyncing keeps the ledger valid, and in a valid ledger adds exactly the
      balances of the three owners whose allowances it syncs. */
  lemma ResyncedValid(balances: map<string, Balance>, allowances: map<string, Allowance>, tokenAddress: Address,
                      source: Address, destination: Address, ev: Event, chain: Chain)
    requires LedgerValid(balances, allowances)
    ensures var r := Resynced(balances, allowances, tokenAddress, source, destination, ev, chain);
      && LedgerValid(r.0, r.1)
      && r.0.Keys == balances.Keys + {BalanceId(destination, tokenAddress)} + {BalanceId(ev.address, tokenAddress)}
                     + {BalanceId(ev.txFrom, tokenAddress)}
  {
    var once := Resync((balances, allowances), tokenAddress, destination, source, ev, chain);
    SyncedAllowancesValid(balances, allowances, tokenAddress, destination, source, ev, chain);
    BalancesForAllowanceValid(balances, allowances, destination, tokenAddress, source, ev);
    var twice := Resync(once, tokenAddress, ev.address, source, ev, chain);
    SyncedAllowancesValid(once.0, once.1, tokenAddress, ev.address, source, ev, chain);
    BalancesForAllowanceValid(once.0, once.1, ev.address, tokenAddress, source, ev);
    SyncedAllowancesValid(twice.0, twice.1, tokenAddress, ev.txFrom, source, ev, chain);
    BalancesForAllowanceValid(twice.0, twice.1, ev.txFrom, tokenAddress, source, ev);
  }

  /** The balances after the credit of `handleTransfer`: the destination's
      record gains the amount, unless the destination is the zero address. */
  function Credited(balances: map<string, Balance>, tokenAddress: Address, destination: Address, amount: real, ev: Event)
    : (r: map<string, Balance>)
    ensures balances.Keys <= r.Keys
    ensures forall k :: BalanceOf(r, k) == BalanceOf(balances, k) + Credit(k, tokenAddress, ZeroAddress, destination, amount)
    ensures forall k | k in balances && k != BalanceId(destination, tokenAddress) :: r[k] == balances[k]
    ensures destination != ZeroAddress ==>
      BalanceId(destination, tokenAddress) in r && r[BalanceId(destination, tokenAddress)].modified == StampOf(ev)
  {
    if destination != ZeroAddress then Adjusted(balances, destination, tokenAddress, amount, ev) else balances
  }

  /** The balances after the debit of `handleTransfer`: the source's record
      loses the amount, unless the source is the zero address. */
  function Debited(balances: map<string, Balance>, tokenAddress: Address, source: Address, amount: real, ev: Event)
    : (r: map<string, Balance>)
    ensures balances.Keys <= r.Keys
    ensures forall k :: BalanceOf(r, k) == BalanceOf(balances, k) + Credit(k, tokenAddress, source, ZeroAddress, amount)
    ensures forall k | k in balances && k != BalanceId(source, tokenAddress) :: r[k] == balances[k]
    ensures source != ZeroAddress ==>
      BalanceId(source, tokenAddress) in r && r[BalanceId(source, tokenAddress)].modified == StampOf(ev)
  {
    if source != ZeroAddress then Adjusted(balances, source, tokenAddress, -amount, ev) else balances
  }

  /** The credit and the debit each keep the ledger valid. */
  lemma CreditedDebitedValid(balances: map<string, Balance>, allowances: map<string, Allowance>, tokenAddress: Address,
                             source: Address, destination: Address, amount: real, ev: Event)
    requires LedgerValid(balances, allowances)
    ensures LedgerValid(Credited(balances, tokenAddress, destination, amount, ev), allowances)
    ensures LedgerValid(Debited(balances, tokenAddress, source, amount, ev), allowances)
  {
    if destination != ZeroAddress {
      AdjustedValid(balances, allowances, destination, tokenAddress, amount, ev);
    }
    if source != ZeroAddress {
      AdjustedValid(balances, allowances, source, tokenAddress, -amount, ev);
    }
  }

  /** A debit that cannot go through: the source is not the zero address and has
      no record. */
  predicate SourceMissing(balances: map<string, Balance>, tokenAddress: Address, source: Address) {
    source != ZeroAddress && BalanceId(source, tokenAddress) !in balances
  }

  /** After the credit the source has a record exactly when it had one before
      or it is the credited destination. */
  lemma SourceFoundAfterCredit(balances: map<string, Balance>, tokenAddress: Address, source: Address,
                               destination: Address, amount: real, ev: Event)
    ensures BalanceId(source, tokenAddress) in Credited(balances, tokenAddress, destination, amount, ev)
            <==> BalanceId(source, tokenAddress) in balances || (destination != ZeroAddress && source == destination)
  {
    BalanceIdInjective(source, tokenAddress, destination, tokenAddress);
  }

  /** The credit, the debit and the resyncs together move every balance amount
      by what the transfer credits under its id, and drop no record. */
  lemma ResyncedMoved(balances: map<string, Balance>, allowances: map<string, Allowance>, tokenAddress: Address,
                      source: Address, destination: Address, amount: real, ev: Event, chain: Chain)
    ensures var debited := Debited(Credited(balances, tokenAddress, destination, amount, ev), tokenAddress, source, amount, ev);
      var r := Resynced(debited, allowances, tokenAddress, source, destination, ev, chain).0;
      balances.Keys <= r.Keys && Moved(balances, r, tokenAddress, source, destination, amount)
  {
    var debited := Debited(Credited(balances, tokenAddress, destination, amount, ev), tokenAddress, source, amount, ev);
    ResyncedKeepsBalances(debited, allowances, tokenAddress, source, destination, ev, chain);
  }

  /** The credit then the debit stamp the records they touch. */
  lemma MovedStamps(balances: map<string, Balance>, tokenAddress: Address, source: Address, destination: Address,
                    amount: real, ev: Event)
    ensures var r := Debited(Credited(balances, tokenAddress, destination, amount, ev), tokenAddress, source, amount, ev);
      && (destination != ZeroAddress ==>
            BalanceId(destination, tokenAddress) in r && r[BalanceId(destination, tokenAddress)].modified == StampOf(ev))
      && (source != ZeroAddress ==>
            BalanceId(source, tokenAddress) in r && r[BalanceId(source, tokenAddress)].modified == StampOf(ev))
  {
    var credited := Credited(balances, tokenAddress, destination, amount, ev);
    var dstId := BalanceId(destination, tokenAddress);
    if destination != ZeroAddress && dstId != BalanceId(source, tokenAddress) {
      assert Debited(credited, tokenAddress, source, amount, ev)[dstId] == credited[dstId];
    }
  }

  /** The token after the first half of `handleTransfer`: a transfer to the zero
      address burns the amount from the supply. */
  function Burnt(token: Token, destination: Address, amount: real): Token {
    if destination != ZeroAddress then token else token.(totalSupply := token.totalSupply - amount)
  }

  /** The token after the second half of `handleTransfer`: a transfer from the
      zero address mints the amount. */
  function Minted(token: Token, source: Address, amount: real): Token {
    if source != ZeroAddress then token else token.(totalSupply := token.totalSupply + amount)
  }

  /** The token after `handleTransfer`: its supply moves by what is minted minus
      what is burnt, and nothing else about it changes. */
  function Supplied(token: Token, source: Address, destination: Address, amount: real): (r: Token)
    ensures r.totalSupply == token.totalSupply + (if source == ZeroAddress then amount else 0.0)
                                               - (if destination == ZeroAddress then amount else 0.0)
    ensures r == token.(totalSupply := r.totalSupply)
  {
    Minted(Burnt(token, destination, amount), source, amount)
  }

  /** Resyncing sets the three allowances of the source as spender to what the
      token contract reports, adds their ids, and keeps every other allowance. */
  lemma ResyncedAllowances(balances: map<string, Balance>, allowances: map<string, Allowance>, tokenAddress: Address,
                           source: Address, destination: Address, ev: Event, chain: Chain)
    ensures var r := Resynced(balances, allowances, tokenAddress, source, destination, ev, chain).1;
      var dstId := AllowanceId(destination, tokenAddress, source);
      var emitterId := AllowanceId(ev.address, tokenAddress, source);
      var senderId := AllowanceId(ev.txFrom, tokenAddress, source);
      && r.Keys == allowances.Keys + {dstId} + {emitterId} + {senderId}
      && r[dstId].amount == FromWad(chain.allowance(tokenAddress, destination, source))
      && r[emitterId].amount == FromWad(chain.allowance(tokenAddress, ev.address, source))
      && r[senderId].amount == FromWad(chain.allowance(tokenAddress, ev.txFrom, source))
      && forall k | k in allowances && k != dstId && k != emitterId && k != senderId :: r[k] == allowances[k]
  {
    AllowanceIdInjective(destination, tokenAddress, source, ev.address, tokenAddress, source);
    AllowanceIdInjective(destination, tokenAddress, source, ev.txFrom, tokenAddress, source);
    AllowanceIdInjective(ev.address, tokenAddress, source, ev.txFrom, tokenAddress, source);
  }

  /** The tables and the outcome after `handleTransfer` of `amount` (the event's wad
      value as a decimal) from `source` to `destination` in the token at `tokenAddress`: the destination
      is credited (its record created when missing) and the source debited; a
      source other than the zero address without a record is fatal, and a fatal
      event leaves no trace; otherwise the token is saved with its supply, three
      allowances are resynced, and a transfer record is saved under the event's
      uid. */
  function TransferEffect(before: Tables, tokenAddress: Address, source: Address, destination: Address,
                          amount: real, ev: Event, chain: Chain): (r: (Tables, Outcome))
    ensures r.1 != Done ==> r.0 == before && r.1 == Aborted(MissingBalance(BalanceId(source, tokenAddress)))
    ensures r.1 == Done ==> r.0.transfers.Keys == before.transfers.Keys + {ev.uid}
  {
    var credited := Credited(before.balances, tokenAddress, destination, amount, ev);
    var srcId := BalanceId(source, tokenAddress);
    if SourceMissing(credited, tokenAddress, source) then (before, Aborted(MissingBalance(srcId)))
    else
      var synced := Resynced(Debited(credited, tokenAddress, source, amount, ev), before.allowances,
                             tokenAddress, source, destination, ev, chain);
      var token := Supplied(LoadedToken(before.tokens, tokenAddress, chain), source, destination, amount);
      var record := TransferRecord(ev.uid, tokenAddress, source, destination, amount, StampOf(ev));
      (Tables(before.tokens[tokenAddress := token], synced.0, synced.1, before.transfers[ev.uid := record]), Done)
  }

  /** The two shapes of `TransferEffect`, one per outcome. */
  lemma TransferEffectCases(before: Tables, tokenAddress: Address, source: Address, destination: Address,
                            amount: real, ev: Event, chain: Chain)
    ensures var credited := Credited(before.balances, tokenAddress, destination, amount, ev);
      var effect := TransferEffect(before, tokenAddress, source, destination, amount, ev, chain);
      if SourceMissing(credited, tokenAddress, source) then
        effect == (before, Aborted(MissingBalance(BalanceId(source, tokenAddress))))
      else
        var synced := Resynced(Debited(credited, tokenAddress, source, amount, ev), before.allowances,
                               tokenAddress, source, destination, ev, chain);
        var token := Supplied(LoadedToken(before.tokens, tokenAddress, chain), source, destination, amount);
        var record := TransferRecord(ev.uid, tokenAddress, source, destination, amount, StampOf(ev));
        effect == (Tables(before.tokens[tokenAddress := token], synced.0, synced.1, before.transfers[ev.uid := record]), Done)
  {
  }

  /** The first half of `handleTransfer`: credit the destination, creating its
      record when missing, or burn the amount when the destination is the zero
      address. */
  method CreditDestination(st: Store, erc20: Token, tokenAddress: Address, destination: Address, amount: real, ev: Event)
    returns (token: Token)
    modifies st`balances
    ensures st.balances == Credited(old(st.balances), tokenAddress, destination, amount, ev)
    ensures token == Burnt(erc20, destination, amount)
  {
    token := erc20;
    if destination != ZeroAddress {
      var r := GetOrCreateERC20Balance(st, destination, tokenAddress, ev, true);
      var destBalance := r.value;
      destBalance := destBalance.(balance := destBalance.balance + amount, modified := StampOf(ev));
      st.balances := st.balances[BalanceId(destination, tokenAddress) := destBalance];
    } else {
      token := token.(totalSupply := token.totalSupply - amount);
    }
  }

  /** The second half of `handleTransfer`: debit the source, whose record must
      exist (a missing one is fatal and changes nothing), or mint the amount when
      the source is the zero address. */
  method DebitSource(st: Store, erc20: Token, tokenAddress: Address, source: Address, amount: real, ev: Event)
    returns (token: Token, outcome: Outcome)
    modifies st`balances
    ensures if SourceMissing(old(st.balances), tokenAddress, source) then
        outcome == Aborted(MissingBalance(BalanceId(source, tokenAddress))) && st.balances == old(st.balances)
      else
        && outcome == Done
        && st.balances == Debited(old(st.balances), tokenAddress, source, amount, ev)
        && token == Minted(erc20, source, amount)
  {
    token := erc20;
    if source != ZeroAddress {
      var r := GetOrCreateERC20Balance(st, source, tokenAddress, ev, false);
      if r.Fatal? {
        return token, Aborted(r.failure);
      }
      var srcBalance := r.value;
      srcBalance := srcBalance.(balance := srcBalance.balance - amount, modified := StampOf(ev));
      st.balances := st.balances[BalanceId(source, tokenAddress) := srcBalance];
    } else {
      token := token.(totalSupply := token.totalSupply + amount);
    }
    outcome := Done;
  }

  /** The three `updateAllowance` calls of `handleTransfer`. */
  method SyncAllowances(st: Store, tokenAddress: Address, source: Address, destination: Address, ev: Event, chain: Chain)
    modifies st`balances, st`allowances
    ensures (st.balances, st.allowances)
            == Resynced(old(st.balances), old(st.allowances), tokenAddress, source, destination, ev, chain)
  {
    ghost var synced := (st.balances, st.allowances);
    UpdateAllowance(st, tokenAddress, destination, source, ev, chain);
    synced := Resync(synced, tokenAddress, destination, source, ev, chain);
    assert (st.balances, st.allowances) == synced;
    UpdateAllowance(st, tokenAddress, ev.address, source, ev, chain);
    synced := Resync(synced, tokenAddress, ev.address, source, ev, chain);
    assert (st.balances, st.allowances) == synced;
    UpdateAllowance(st, tokenAddress, ev.txFrom, source, ev, chain);
  }

  /** `handleTransfer` against the store, from the point where the event's wad
      value has been read as the decimal `amount`. */
  method Transfer(st: Store, tokenAddress: Address, source: Address, destination: Address, amount: real,
                  ev: Event, chain: Chain) returns (outcome: Outcome)
    modifies st`tokens, st`balances, st`allowances, st`transfers
    ensures var before := Tables(old(st.tokens), old(st.balances), old(st.allowances), old(st.transfers));
      TransferEffect(before, tokenAddress, source, destination, amount, ev, chain)
      == (Tables(st.tokens, st.balances, st.allowances, st.transfers), outcome)
  {
    ghost var before := Tables(st.tokens, st.balances, st.allowances, st.transfers);
    var erc20 := GetOrCreateERC20(st, tokenAddress, chain);
    assert erc20 == LoadedToken(before.tokens, tokenAddress, chain);
    var snapshot := st.balances;
    var token := CreditDestination(st, erc20, tokenAddress, destination, amount, ev);
    ghost var credited := st.balances;
    token, outcome := DebitSource(st, token, tokenAddress, source, amount, ev);
    if outcome.Aborted? {
      // A fatal error discards every write of the event.
      st.balances := snapshot;
      TransferEffectCases(before, tokenAddress, source, destination, amount, ev, chain);
      return;
    }
    assert token == Supplied(erc20, source, destination, amount);
    st.tokens := st.tokens[tokenAddress := token];
    ghost var synced := Resynced(Debited(credited, tokenAddress, source, amount, ev), before.allowances,
                                 tokenAddress, source, destination, ev, chain);
    SyncAllowances(st, tokenAddress, source, destination, ev, chain);
    var record := TransferRecord(ev.uid, tokenAddress, source, destination, amount, StampOf(ev));
    st.transfers := st.transfers[ev.uid := record];
    TransferEffectCases(before, tokenAddress, source, destination, amount, ev, chain);
  }

  /** A transfer aborts exactly when the source is a non-zero address other than
      the destination and holds no balance record; an aborted transfer changes
      nothing. */
  lemma TransferAborts(before: Tables, tokenAddress: Address, source: Address, destination: Address,
                       amount: real, ev: Event, chain: Chain)
    ensures var (after, outcome) := TransferEffect(before, tokenAddress, source, destination, amount, ev, chain);
      && (outcome.Aborted? <==> source != ZeroAddress && source != destination
                                && BalanceId(source, tokenAddress) !in before.balances)
      && (outcome.Aborted? ==> after == before && outcome.failure == MissingBalance(BalanceId(source, tokenAddress)))
  {
    SourceFoundAfterCredit(before.balances, tokenAddress, source, destination, amount, ev);
    TransferEffectCases(before, tokenAddress, source, destination, amount, ev, chain);
  }

  /** A completed transfer credits the destination and debits the source by the
      transferred amount, each only when not the zero address, changes no other
      balance amount, and drops no record. */
  lemma TransferMoves(before: Tables, tokenAddress: Address, source: Address, destination: Address,
                      amount: real, ev: Event, chain: Chain)
    ensures var (after, outcome) := TransferEffect(before, tokenAddress, source, destination, amount, ev, chain);
      outcome == Done ==>
        && before.balances.Keys <= after.balances.Keys
        && Moved(before.balances, after.balances, tokenAddress, source, destination, amount)
  {
    TransferEffectCases(before, tokenAddress, source, destination, amount, ev, chain);
    ResyncedMoved(before.balances, before.allowances, tokenAddress, source, destination, amount, ev, chain);
  }

  /** A completed transfer stamps the records of the destination and of the
      source, other than the zero address, with the event. */
  lemma TransferStamps(before: Tables, tokenAddress: Address, source: Address, destination: Address,
                       amount: real, ev: Event, chain: Chain)
    ensures var (after, outcome) := TransferEffect(before, tokenAddress, source, destination, amount, ev, chain);
      outcome == Done ==>
        && (destination != ZeroAddress ==> after.balances[BalanceId(destination, tokenAddress)].modified == StampOf(ev))
        && (source != ZeroAddress ==> after.balances[BalanceId(source, tokenAddress)].modified == StampOf(ev))
  {
    TransferEffectCases(before, tokenAddress, source, destination, amount, ev, chain);
    MovedStamps(before.balances, tokenAddress, source, destination, amount, ev);
    var debited := Debited(Credited(before.balances, tokenAddress, destination, amount, ev), tokenAddress, source, amount, ev);
    ResyncedKeepsBalances(debited, before.allowances, tokenAddress, source, destination, ev, chain);
  }

  /** A transfer keeps the ledger valid: every record sits under the id of its
      own keys, and every allowance's owner has a balance. */
  lemma TransferKeepsLedger(before: Tables, tokenAddress: Address, source: Address, destination: Address,
                            amount: real, ev: Event, chain: Chain)
    requires LedgerValid(before.balances, before.allowances)
    ensures var after := TransferEffect(before, tokenAddress, source, destination, amount, ev, chain).0;
      LedgerValid(after.balances, after.allowances)
  {
    var (after, outcome) := TransferEffect(before, tokenAddress, source, destination, amount, ev, chain);
    if outcome == Done {
      var credited := Credited(before.balances, tokenAddress, destination, amount, ev);
      CreditedDebitedValid(before.balances, before.allowances, tokenAddress, source, destination, amount, ev);
      CreditedDebitedValid(credited, before.allowances, tokenAddress, source, destination, amount, ev);
      ResyncedValid(Debited(credited, tokenAddress, source, amount, ev), before.allowances,
                    tokenAddress, source, destination, ev, chain);
    }
  }

  /** A completed transfer moves the token's recorded supply and the sum of the
      balances of its non-zero holders by the same amount: a mint adds to both, a
      burn takes from both, a transfer between holders changes neither. So a
      token whose supply equals its circulating balances keeps that equality. */
  lemma TransferConserves(before: Tables, tokenAddress: Address, source: Address, destination: Address,
                          amount: real, ev: Event, chain: Chain)
    requires LedgerValid(before.balances, before.allowances)
    ensures var (after, outcome) := TransferEffect(before, tokenAddress, source, destination, amount, ev, chain);
      outcome == Done ==>
        Circulating(after.balances, tokenAddress) - Circulating(before.balances, tokenAddress)
        == after.tokens[tokenAddress].totalSupply - LoadedToken(before.tokens, tokenAddress, chain).totalSupply
  {
    var (after, outcome) := TransferEffect(before, tokenAddress, source, destination, amount, ev, chain);
    if outcome == Done {
      TransferMoves(before, tokenAddress, source, destination, amount, ev, chain);
      TransferKeepsLedger(before, tokenAddress, source, destination, amount, ev, chain);
      MovedConserves(before.balances, after.balances, tokenAddress, source, destination, amount);
    }
  }

  /** A completed transfer saves the token with its supply shrunk by a burn and
      grown by a mint. */
  lemma TransferSupply(before: Tables, tokenAddress: Address, source: Address, destination: Address,
                       amount: real, ev: Event, chain: Chain)
    ensures var (after, outcome) := TransferEffect(before, tokenAddress, source, destination, amount, ev, chain);
      outcome == Done ==>
        && tokenAddress in after.tokens
        && after.tokens[tokenAddress].totalSupply
           == LoadedToken(before.tokens, tokenAddress, chain).totalSupply
              + (if source == ZeroAddress then amount else 0.0) - (if destination == ZeroAddress then amount else 0.0)
  {
  }

  /** A transfer changes no token other than its own. */
  lemma TransferKeepsOtherTokens(before: Tables, tokenAddress: Address, source: Address, destination: Address,
                                 amount: real, ev: Event, chain: Chain)
    ensures var after := TransferEffect(before, tokenAddress, source, destination, amount, ev, chain).0;
      forall a | a in before.tokens && a != tokenAddress :: a in after.tokens && after.tokens[a] == before.tokens[a]
  {
  }

  /** A completed transfer saves a record of its token, source, destination and
      amount under the event's uid, and keeps every other transfer record. */
  lemma TransferRecorded(before: Tables, tokenAddress: Address, source: Address, destination: Address,
                         amount: real, ev: Event, chain: Chain)
    ensures var (after, outcome) := TransferEffect(before, tokenAddress, source, destination, amount, ev, chain);
      outcome == Done ==>
        && ev.uid in after.transfers
        && after.transfers[ev.uid] == TransferRecord(ev.uid, tokenAddress, source, destination, amount, StampOf(ev))
        && (forall u | u in before.transfers && u != ev.uid :: u in after.transfers && after.transfers[u] == before.transfers[u])
  {
  }

  /** After a completed transfer, the allowances of the source as spender, with
      the destination, the emitting contract and the transaction sender as owner,
      each hold what the token contract reports; every other allowance is kept. */
  lemma TransferSyncsAllowances(before: Tables, tokenAddress: Address, source: Address, destination: Address,
                                amount: real, ev: Event, chain: Chain)
    ensures var (after, outcome) := TransferEffect(before, tokenAddress, source, destination, amount, ev, chain);
      var dstId := AllowanceId(destination, tokenAddress, source);
      var emitterId := AllowanceId(ev.address, tokenAddress, source);
      var senderId := AllowanceId(ev.txFrom, tokenAddress, source);
      outcome == Done ==>
        && after.allowances.Keys == before.allowances.Keys + {dstId} + {emitterId} + {senderId}
        && after.allowances[dstId].amount == FromWad(chain.allowance(tokenAddress, destination, source))
        && after.allowances[emitterId].amount == FromWad(chain.allowance(tokenAddress, ev.address, source))
        && after.allowances[senderId].amount == FromWad(chain.allowance(tokenAddress, ev.txFrom, source))
        && forall k | k in before.allowances && k != dstId && k != emitterId && k != senderId ::
             after.allowances[k] == before.allowances[k]
  {
    var debited := Debited(Credited(before.balances, tokenAddress, destination, amount, ev), tokenAddress, source, amount, ev);
    ResyncedAllowances(debited, before.allowances, tokenAddress, source, destination, ev, chain);
  }

  /** A completed transfer from a holder to itself leaves every balance amount as
      it was. */
  lemma SelfTransferKeepsBalances(before: Tables, tokenAddress: Address, holder: Address,
                                  amount: real, ev: Event, chain: Chain)
    ensures var (after, outcome) := TransferEffect(before, tokenAddress, holder, holder, amount, ev, chain);
      outcome == Done ==> forall k :: BalanceOf(after.balances, k) == BalanceOf(before.balances, k)
  {
    TransferMoves(before, tokenAddress, holder, holder, amount, ev, chain);
  }

  /** No transfer changes the amount recorded for the zero address, which is
      never credited or debited (it may gain a record, at zero, through an
      allowance resync). */
  lemma ZeroAddressBalance(before: Tables, tokenAddress: Address, source: Address, destination: Address,
                           amount: real, ev: Event, chain: Chain)
    ensures var after := TransferEffect(before, tokenAddress, source, destination, amount, ev, chain).0;
      BalanceOf(after.balances, BalanceId(ZeroAddress, tokenAddress))
      == BalanceOf(before.balances, BalanceId(ZeroAddress, tokenAddress))
  {
    TransferMoves(before, tokenAddress, source, destination, amount, ev, chain);
    BalanceIdInjective(ZeroAddress, tokenAddress, source, tokenAddress);
    BalanceIdInjective(ZeroAddress, tokenAddress, destination, tokenAddress);
  }

  /** A completed burn from a source that has no allowance for the zero address
      leaves a balance record for the zero address: the resync with the
      destination as owner creates it, at zero, when missing. */
  lemma BurnRecordsZeroHolder(before: Tables, tokenAddress: Address, source: Address, amount: real, ev: Event,
                              chain: Chain)
    requires AllowanceId(ZeroAddress, tokenAddress, source) !in before.allowances
    ensures var (after, outcome) := TransferEffect(before, tokenAddress, source, ZeroAddress, amount, ev, chain);
      outcome == Done ==>
        && BalanceId(ZeroAddress, tokenAddress) in after.balances
        && BalanceOf(after.balances, BalanceId(ZeroAddress, tokenAddress))
           == BalanceOf(before.balances, BalanceId(ZeroAddress, tokenAddress))
  {
    var (after, outcome) := TransferEffect(before, tokenAddress, source, ZeroAddress, amount, ev, chain);
    if outcome == Done {
      TransferEffectCases(before, tokenAddress, source, ZeroAddress, amount, ev, chain);
      var debited := Debited(Credited(before.balances, tokenAddress, ZeroAddress, amount, ev), tokenAddress, source, amount, ev);
      var once := Resync((debited, before.allowances), tokenAddress, ZeroAddress, source, ev, chain);
      var twice := Resync(once, tokenAddress, ev.address, source, ev, chain);
      assert BalanceId(ZeroAddress, tokenAddress) in once.0;
      ResyncKeepsBalances(once, tokenAddress, ev.address, source, ev, chain);
      ResyncKeepsBalances(twice, tokenAddress, ev.txFrom, source, ev, chain);
      ZeroAddressBalance(before, tokenAddress, source, ZeroAddress, amount, ev, chain);
    }
  }

  /** The allowances table after an Approval: the (owner, spender) record, created
      when missing, holds exactly the approved amount. */
  function Approved(allowances: map<string, Allowance>, tokenAddress: Address, owner: Address, spender: Address,
                    value: int, ev: Event): (r: map<string, Allowance>)
    ensures AllowanceId(owner, tokenAddress, spender) in r
    ensures r[AllowanceId(owner, tokenAddress, spender)].amount == FromWad(value)
    ensures r.Keys == allowances.Keys + {AllowanceId(owner, tokenAddress, spender)}
    ensures forall k | k in allowances && k != AllowanceId(owner, tokenAddress, spender) :: r[k] == allowances[k]
  {
    var id := AllowanceId(owner, tokenAddress, spender);
    var current := if id in allowances then allowances[id] else NewAllowance(owner, tokenAddress, spender, ev);
    allowances[id := current.(amount := FromWad(value), modified := StampOf(ev))]
  }

  /** Two approvals of the same (owner, spender) leave the last one, not a sum:
      the second overwrites the first entirely. */
  lemma ApprovalLastWins(allowances: map<string, Allowance>, tokenAddress: Address, owner: Address, spender: Address,
                         value1: int, ev1: Event, value2: int, ev2: Event)
    ensures Approved(Approved(allowances, tokenAddress, owner, spender, value1, ev1), tokenAddress, owner, spender, value2, ev2)
            == Approved(allowances, tokenAddress, owner, spender, value2, ev2)
  {
  }


  /** `handleApproval`: the (owner, spender) allowance, created when missing
      together with the owner's balance, is set to the approved amount. */
  method Approve(st: Store, tokenAddress: Address, owner: Address, spender: Address, value: int, ev: Event)
    modifies st`balances, st`allowances
    ensures st.allowances == Approved(old(st.allowances), tokenAddress, owner, spender, value, ev)
    ensures st.balances == BalancesForAllowance(old(st.balances), old(st.allowances), owner, tokenAddress, spender, ev)
  {
    var id := AllowanceId(owner, tokenAddress, spender);
    var r := GetOrCreateERC20BAllowance(st, owner, tokenAddress, spender, ev, true);
    var allowance := r.value;
    allowance := allowance.(amount := FromWad(value), modified := StampOf(ev));
    st.allowances := st.allowances[id := allowance];
  }

  /** An approval keeps the ledger valid. */
  lemma ApproveKeepsLedger(balances: map<string, Balance>, allowances: map<string, Allowance>, tokenAddress: Address,
                           owner: Address, spender: Address, value: int, ev: Event)
    requires LedgerValid(balances, allowances)
    ensures LedgerValid(BalancesForAllowance(balances, allowances, owner, tokenAddress, spender, ev),
                        Approved(allowances, tokenAddress, owner, spender, value, ev))
  {
    AllowanceWriteValid(balances, allowances, owner, tokenAddress, spender, ev, FromWad(value), StampOf(ev));
  }
}
