/** ERC-20 tokens, balances and allowances: their ids, their get-or-create
    operations and the allowance resynchronisation from a contract read. */
module Erc20 {
  import opened Identifiers
  import opened Decimal
  import opened Schema

  /** `balanceId`: token hex, '-', holder hex. */
  function BalanceId(address: Address, tokenAddress: Address): string {
    Join(tokenAddress, address)
  }

  /** `allowanceId`: token hex, '-', owner hex, '-', spender hex. */
  function AllowanceId(address: Address, tokenAddress: Address, approvedAddress: Address): string {
    Join(Join(tokenAddress, address), approvedAddress)
  }

  /** A balance id is 85 characters: the token's 42, the separator, the
      holder's 42; an allowance id appends a separator and the spender's 42. */
  lemma IdLayout(address: Address, tokenAddress: Address, approvedAddress: Address)
    ensures var r := BalanceId(address, tokenAddress);
      |r| == 85 && r[..42] == tokenAddress && r[42] == '-' && r[43..] == address
    ensures var r := AllowanceId(address, tokenAddress, approvedAddress);
      && |r| == 128 && r[..42] == tokenAddress && r[42] == '-' && r[43..85] == address
      && r[85] == '-' && r[86..] == approvedAddress
  {
    var b := BalanceId(address, tokenAddress);
    assert b[..42] == tokenAddress && b[43..] == address;
    var a := AllowanceId(address, tokenAddress, approvedAddress);
    assert a == b + "-" + approvedAddress;
    assert a[..85] == b;
    assert a[..42] == b[..42] && a[43..85] == b[43..];
  }

  lemma BalanceIdInjective(a1: Address, t1: Address, a2: Address, t2: Address)
    ensures BalanceId(a1, t1) == BalanceId(a2, t2) <==> a1 == a2 && t1 == t2
  {
    if BalanceId(a1, t1) == BalanceId(a2, t2) {
      AddressNoSeparator(t1);
      AddressNoSeparator(t2);
      JoinInjective(t1, a1, t2, a2);
    }
  }

  lemma AllowanceIdInjective(a1: Address, t1: Address, s1: Address, a2: Address, t2: Address, s2: Address)
    ensures AllowanceId(a1, t1, s1) == AllowanceId(a2, t2, s2) <==> a1 == a2 && t1 == t2 && s1 == s2
  {
    if AllowanceId(a1, t1, s1) == AllowanceId(a2, t2, s2) {
      AddressNoSeparator(t1);
      AddressNoSeparator(t2);
      AddressNoSeparator(a1);
      AddressNoSeparator(a2);
      assert AllowanceId(a1, t1, s1) == Join(t1, Join(a1, s1));
      assert AllowanceId(a2, t2, s2) == Join(t2, Join(a2, s2));
      JoinInjective(t1, Join(a1, s1), t2, Join(a2, s2));
      JoinInjective(a1, s1, a2, s2);
    }
  }

  /** A token as first seen: metadata and supply read from its contract. */
  function NewToken(tokenAddress: Address, chain: Chain): (r: Token)
    ensures r.id == tokenAddress
    ensures r.name == chain.name(tokenAddress) && r.symbol == chain.symbol(tokenAddress)
    ensures r.decimals == chain.decimals(tokenAddress)
    ensures r.totalSupply * WadInt as real == chain.totalSupply(tokenAddress) as real
  {
    Token(tokenAddress, chain.name(tokenAddress), chain.symbol(tokenAddress),
          chain.decimals(tokenAddress), FromWad(chain.totalSupply(tokenAddress)))
  }

  /** A balance as first created: zero, stamped with the creating event. */
  function NewBalance(address: Address, tokenAddress: Address, ev: Event): Balance {
    Balance(BalanceId(address, tokenAddress), tokenAddress, address, ZERO, StampOf(ev))
  }

  /** An allowance as first created: zero, linked to the owner's balance. */
  function NewAllowance(address: Address, tokenAddress: Address, approvedAddress: Address, ev: Event): Allowance {
    Allowance(AllowanceId(address, tokenAddress, approvedAddress), tokenAddress, address,
              BalanceId(address, tokenAddress), approvedAddress, ZERO, StampOf(ev))
  }

  /** The balances table after making sure the holder has a record. */
  function WithBalance(balances: map<string, Balance>, address: Address, tokenAddress: Address, ev: Event): (r: map<string, Balance>)
    ensures BalanceId(address, tokenAddress) in r
    ensures r.Keys == balances.Keys + {BalanceId(address, tokenAddress)}
    ensures forall k | k in balances :: k in r && r[k] == balances[k]
    ensures BalanceId(address, tokenAddress) !in balances ==> r[BalanceId(address, tokenAddress)].balance == ZERO
  {
    var id := BalanceId(address, tokenAddress);
    if id in balances then balances else balances[id := NewBalance(address, tokenAddress, ev)]
  }

  /** Every balance is stored under the id of its own token and holder. */
  ghost predicate BalancesKeyed(balances: map<string, Balance>) {
    forall k | k in balances ::
      balances[k].id == k && k == BalanceId(balances[k].address, balances[k].tokenAddress)
  }

  /** Every allowance is stored under the id of its own token, owner and spender,
      and links to its owner's balance, which exists. */
  ghost predicate AllowancesKeyed(allowances: map<string, Allowance>, balances: map<string, Balance>) {
    forall k | k in allowances ::
      && allowances[k].id == k
      && k == AllowanceId(allowances[k].address, allowances[k].tokenAddress, allowances[k].approvedAddress)
      && allowances[k].balance == BalanceId(allowances[k].address, allowances[k].tokenAddress)
      && allowances[k].balance in balances
  }

  ghost predicate LedgerValid(balances: map<string, Balance>, allowances: map<string, Allowance>) {
    BalancesKeyed(balances) && AllowancesKeyed(allowances, balances)
  }

  /** A record found under the id of (address, token) is that holder's record. */
  lemma KeyedRecord(balances: map<string, Balance>, address: Address, tokenAddress: Address)
    requires BalancesKeyed(balances)
    requires BalanceId(address, tokenAddress) in balances
    ensures balances[BalanceId(address, tokenAddress)].address == address
    ensures balances[BalanceId(address, tokenAddress)].tokenAddress == tokenAddress
  {
    var b := balances[BalanceId(address, tokenAddress)];
    BalanceIdInjective(address, tokenAddress, b.address, b.tokenAddress);
  }

  /** `getOrCreateERC20`: the stored token, or a new one built from contract
      reads. The new token is not saved here. */
  method GetOrCreateERC20(st: Store, tokenAddress: Address, chain: Chain) returns (token: Token)
    ensures tokenAddress in st.tokens ==> token == st.tokens[tokenAddress]
    ensures tokenAddress !in st.tokens ==> token == NewToken(tokenAddress, chain)
  {
    if tokenAddress in st.tokens {
      token := st.tokens[tokenAddress];
    } else {
      token := NewToken(tokenAddress, chain);
    }
  }

  /** `getOrCreateERC20Balance`: the stored balance; else, when creation is
      allowed, a new zero balance that is saved; else a fatal error and no
      record. */
  method GetOrCreateERC20Balance(st: Store, address: Address, tokenAddress: Address, ev: Event, canCreate: bool)
    returns (r: Result<Balance>)
    modifies st`balances
    ensures var id := BalanceId(address, tokenAddress);
      if id in old(st.balances) then r == Ok(old(st.balances)[id]) && st.balances == old(st.balances)
      else if canCreate then
        && r == Ok(NewBalance(address, tokenAddress, ev))
        && st.balances == old(st.balances)[id := r.value]
      else r == Fatal(MissingBalance(id)) && st.balances == old(st.balances)
    ensures canCreate ==>
      st.balances == WithBalance(old(st.balances), address, tokenAddress, ev)
      && r == Ok(st.balances[BalanceId(address, tokenAddress)])
  {
    var id := BalanceId(address, tokenAddress);
    if id in st.balances {
      r := Ok(st.balances[id]);
    } else if !canCreate {
      r := Fatal(MissingBalance(id));
    } else {
      var balance := NewBalance(address, tokenAddress, ev);
      st.balances := st.balances[id := balance];
      r := Ok(balance);
    }
  }

  /** `getOrCreateERC20BAllowance`: the stored allowance; else, when creation is
      allowed, a new zero allowance, saved together with the owner's balance when
      that is missing; else a fatal error and no record. */
  method GetOrCreateERC20BAllowance(st: Store, address: Address, tokenAddress: Address, approvedAddress: Address,
                                    ev: Event, canCreate: bool)
    returns (r: Result<Allowance>)
    modifies st`balances, st`allowances
    ensures var id := AllowanceId(address, tokenAddress, approvedAddress);
      if id in old(st.allowances) then
        && r == Ok(old(st.allowances)[id])
        && st.allowances == old(st.allowances) && st.balances == old(st.balances)
      else if canCreate then
        && r == Ok(NewAllowance(address, tokenAddress, approvedAddress, ev))
        && st.allowances == old(st.allowances)[id := r.value]
        && st.balances == WithBalance(old(st.balances), address, tokenAddress, ev)
      else
        && r == Fatal(MissingAllowance(id))
        && st.allowances == old(st.allowances) && st.balances == old(st.balances)
  {
    var id := AllowanceId(address, tokenAddress, approvedAddress);
    if id in st.allowances {
      r := Ok(st.allowances[id]);
    } else if !canCreate {
      r := Fatal(MissingAllowance(id));
    } else {
      var balanceKey := BalanceId(address, tokenAddress);
      if balanceKey !in st.balances {
        var created := GetOrCreateERC20Balance(st, address, tokenAddress, ev, true);
      }
      var allowance := NewAllowance(address, tokenAddress, approvedAddress, ev);
      st.allowances := st.allowances[id := allowance];
      r := Ok(allowance);
    }
  }

  /** The allowances table after `updateAllowance`: the record of
      (allowed as owner, approved as spender) holds the amount read from the token
      contract, whatever it held before. */
  function SyncedAllowances(allowances: map<string, Allowance>, tokenAddress: Address, allowedAddress: Address,
                            approvedAddress: Address, ev: Event, chain: Chain): (r: map<string, Allowance>)
    ensures AllowanceId(allowedAddress, tokenAddress, approvedAddress) in r
    ensures r[AllowanceId(allowedAddress, tokenAddress, approvedAddress)].amount
            == FromWad(chain.allowance(tokenAddress, allowedAddress, approvedAddress))
    ensures r.Keys == allowances.Keys + {AllowanceId(allowedAddress, tokenAddress, approvedAddress)}
    ensures forall k | k in allowances && k != AllowanceId(allowedAddress, tokenAddress, approvedAddress) ::
              r[k] == allowances[k]
    ensures var id := AllowanceId(allowedAddress, tokenAddress, approvedAddress);
      var amount := FromWad(chain.allowance(tokenAddress, allowedAddress, approvedAddress));
      && (id in allowances ==> r[id] == allowances[id].(amount := amount))
      && (id !in allowances ==> r[id] == NewAllowance(allowedAddress, tokenAddress, approvedAddress, ev).(amount := amount))
  {
    var id := AllowanceId(allowedAddress, tokenAddress, approvedAddress);
    var current := if id in allowances then allowances[id] else NewAllowance(allowedAddress, tokenAddress, approvedAddress, ev);
    allowances[id := current.(amount := FromWad(chain.allowance(tokenAddress, allowedAddress, approvedAddress)))]
  }

  /** Syncing the same allowance twice against the same contract state is the
      same as syncing it once: the amount is overwritten, never accumulated. */
  lemma SyncedAllowancesIdempotent(allowances: map<string, Allowance>, tokenAddress: Address, allowedAddress: Address,
                                   approvedAddress: Address, ev1: Event, ev2: Event, chain: Chain)
    ensures var once := SyncedAllowances(allowances, tokenAddress, allowedAddress, approvedAddress, ev1, chain);
      SyncedAllowances(once, tokenAddress, allowedAddress, approvedAddress, ev2, chain) == once
  {
  }

  /** The balances table after `getOrCreateERC20BAllowance` with creation
      allowed: unchanged when the allowance exists, else with the owner's balance
      made sure of. */
  function BalancesForAllowance(balances: map<string, Balance>, allowances: map<string, Allowance>,
                                address: Address, tokenAddress: Address, approvedAddress: Address, ev: Event)
    : (r: map<string, Balance>)
    ensures balances.Keys <= r.Keys
    ensures forall k | k in balances :: r[k] == balances[k]
    ensures AllowanceId(address, tokenAddress, approvedAddress) !in allowances ==> BalanceId(address, tokenAddress) in r
    ensures r.Keys <= balances.Keys + {BalanceId(address, tokenAddress)}
    ensures forall k | k in r && k !in balances :: r[k] == NewBalance(address, tokenAddress, ev)
  {
    if AllowanceId(address, tokenAddress, approvedAddress) in allowances then balances
    else WithBalance(balances, address, tokenAddress, ev)
  }

  /** In a valid ledger an allowance's owner already has a balance, so the
      owner's balance is there afterwards whether or not the allowance was. */
  lemma BalancesForAllowanceValid(balances: map<string, Balance>, allowances: map<string, Allowance>,
                                  address: Address, tokenAddress: Address, approvedAddress: Address, ev: Event)
    requires LedgerValid(balances, allowances)
    ensures BalancesForAllowance(balances, allowances, address, tokenAddress, approvedAddress, ev)
            == WithBalance(balances, address, tokenAddress, ev)
  {
    var id := AllowanceId(address, tokenAddress, approvedAddress);
    if id in allowances {
      var a := allowances[id];
      AllowanceIdInjective(a.address, a.tokenAddress, a.approvedAddress, address, tokenAddress, approvedAddress);
    }
  }

  /** Overwriting the amount and stamp of the (owner, spender) allowance, created
      when missing together with its owner's balance, keeps the ledger valid. */
  lemma AllowanceWriteValid(balances: map<string, Balance>, allowances: map<string, Allowance>,
                            address: Address, tokenAddress: Address, approvedAddress: Address, ev: Event,
                            amount: real, modified: Stamp)
    requires LedgerValid(balances, allowances)
    ensures var id := AllowanceId(address, tokenAddress, approvedAddress);
      var current := if id in allowances then allowances[id] else NewAllowance(address, tokenAddress, approvedAddress, ev);
      LedgerValid(BalancesForAllowance(balances, allowances, address, tokenAddress, approvedAddress, ev),
                  allowances[id := current.(amount := amount, modified := modified)])
  {
    var id := AllowanceId(address, tokenAddress, approvedAddress);
    BalancesForAllowanceValid(balances, allowances, address, tokenAddress, approvedAddress, ev);
    if id in allowances {
      var a := allowances[id];
      AllowanceIdInjective(a.address, a.tokenAddress, a.approvedAddress, address, tokenAddress, approvedAddress);
    }
  }

  /** A resync keeps the ledger valid. */
  lemma SyncedAllowancesValid(balances: map<string, Balance>, allowances: map<string, Allowance>, tokenAddress: Address,
                              allowedAddress: Address, approvedAddress: Address, ev: Event, chain: Chain)
    requires LedgerValid(balances, allowances)
    ensures LedgerValid(BalancesForAllowance(balances, allowances, allowedAddress, tokenAddress, approvedAddress, ev),
                        SyncedAllowances(allowances, tokenAddress, allowedAddress, approvedAddress, ev, chain))
  {
    var id := AllowanceId(allowedAddress, tokenAddress, approvedAddress);
    var current := if id in allowances then allowances[id] else NewAllowance(allowedAddress, tokenAddress, approvedAddress, ev);
    AllowanceWriteValid(balances, allowances, allowedAddress, tokenAddress, approvedAddress, ev,
                        FromWad(chain.allowance(tokenAddress, allowedAddress, approvedAddress)), current.modified);
  }

  /** `updateAllowance(token, allowed, approved)`: creates the allowance of owner
      `allowed` for spender `approved` when missing, then overwrites its amount with
      `allowance(allowed, approved)` read from the token contract. */
  method UpdateAllowance(st: Store, tokenAddress: Address, allowedAddress: Address, approvedAddress: Address,
                         ev: Event, chain: Chain)
    modifies st`balances, st`allowances
    ensures st.allowances == SyncedAllowances(old(st.allowances), tokenAddress, allowedAddress, approvedAddress, ev, chain)
    ensures st.balances
            == BalancesForAllowance(old(st.balances), old(st.allowances), allowedAddress, tokenAddress, approvedAddress, ev)
  {
    var id := AllowanceId(allowedAddress, tokenAddress, approvedAddress);
    var r := GetOrCreateERC20BAllowance(st, allowedAddress, tokenAddress, approvedAddress, ev, true);
    var allowance := r.value;
    allowance := allowance.(amount := FromWad(chain.allowance(tokenAddress, allowedAddress, approvedAddress)));
    st.allowances := st.allowances[id := allowance];
  }
}
