/** The LP-token balance a SAFE saviour holds for each SAFE handler. Every
    Deposit, Withdraw and SaveSAFE writes the new balance and appends one change
    record carrying the delta, so a balance is the sum of its recorded deltas. */
module Savior {
  import opened Identifiers
  import opened Decimal
  import opened Schema
  import opened Sums

  /** `saviorId`: the saviour address and the SAFE handler address, joined. */
  function SaviorId(savior: Address, safeHandler: Address): string {
    Join(savior, safeHandler)
  }

  /** A saviour id is 85 characters: the saviour's 42, the separator, the
      handler's 42. */
  lemma SaviorIdLayout(savior: Address, safeHandler: Address)
    ensures var r := SaviorId(savior, safeHandler);
      |r| == 85 && r[..42] == savior && r[42] == '-' && r[43..] == safeHandler
  {
    var r := SaviorId(savior, safeHandler);
    assert r[..42] == savior && r[43..] == safeHandler;
  }

  lemma SaviorIdInjective(s1: Address, h1: Address, s2: Address, h2: Address)
    ensures SaviorId(s1, h1) == SaviorId(s2, h2) <==> s1 == s2 && h1 == h2
  {
    if SaviorId(s1, h1) == SaviorId(s2, h2) {
      AddressNoSeparator(s1);
      AddressNoSeparator(s2);
      JoinInjective(s1, h1, s2, h2);
    }
  }

  /** The two tables the saviour handlers write. */
  datatype Ledger = Ledger(balances: map<string, SaviorBalance>, changes: map<string, SaviorBalanceChange>)

  /** The three saviour events, with the LP-token amount they carry as a wad. */
  datatype SaviorEvent = SaveSafe | Deposit(lpTokenAmount: int) | Withdraw(lpTokenAmount: int)

  /** The zero balance `getOrCreateSaviorBalance` creates. */
  function NewSaviorBalance(savior: Address, safeHandler: Address, ev: Event): (r: SaviorBalance)
    ensures r.id == SaviorId(savior, safeHandler) && r.saviorAddress == savior && r.address == safeHandler
    ensures r.balance == ZERO && r.created == StampOf(ev)
  {
    SaviorBalance(SaviorId(savior, safeHandler), savior, safeHandler, ZERO, StampOf(ev))
  }

  /** What `getOrCreateSaviorBalance` yields: the stored record, else a new one. */
  function LoadedSaviorBalance(balances: map<string, SaviorBalance>, savior: Address, safeHandler: Address,
                               ev: Event): SaviorBalance
  {
    var id := SaviorId(savior, safeHandler);
    if id in balances then balances[id] else NewSaviorBalance(savior, safeHandler, ev)
  }

  /** The balance each handler writes, from the balance it loaded. */
  function NewAmount(e: SaviorEvent, current: real): real {
    match e
    case SaveSafe => ZERO
    case Deposit(amount) => current + FromWad(amount)
    case Withdraw(amount) => current - FromWad(amount)
  }

  /** The delta each handler records, from the balance it loaded. */
  function Delta(e: SaviorEvent, current: real): real {
    match e
    case SaveSafe => -current
    case Deposit(amount) => FromWad(amount)
    case Withdraw(amount) => -FromWad(amount)
  }

  /** The balance written is the balance loaded plus the delta recorded, for
      every handler; SaveSAFE wipes the balance by recording its negation. */
  lemma NewAmountIsDelta(e: SaviorEvent, current: real)
    ensures NewAmount(e, current) == current + Delta(e, current)
    ensures e.SaveSafe? ==> NewAmount(e, current) == ZERO && Delta(e, current) == -current
    ensures e.Deposit? ==> Delta(e, current) == FromWad(e.lpTokenAmount)
    ensures e.Withdraw? ==> Delta(e, current) == -FromWad(e.lpTokenAmount)
  {
  }

  /** The tables after a saviour event emitted by the saviour at `ev.address`
      for `safeHandler`: the loaded balance is rewritten and one change record is
      stored under the event's uid. */
  function Applied(ledger: Ledger, e: SaviorEvent, safeHandler: Address, ev: Event): (r: Ledger)
    ensures ev.uid in r.changes
    ensures SavedBalance(r.balances, ev.address, safeHandler)
            == SavedBalance(ledger.balances, ev.address, safeHandler) + r.changes[ev.uid].deltaBalance
  {
    var id := SaviorId(ev.address, safeHandler);
    var b := LoadedSaviorBalance(ledger.balances, ev.address, safeHandler, ev);
    var change := SaviorBalanceChange(ev.uid, ev.address, safeHandler, Delta(e, b.balance), StampOf(ev));
    Ledger(ledger.balances[id := b.(balance := NewAmount(e, b.balance))], ledger.changes[ev.uid := change])
  }

  /** A saviour event touches one balance and adds one change record: the new
      balance is the loaded one plus the recorded delta, the change record names
      the subject, and every other balance and change record is kept. */
  lemma AppliedShape(ledger: Ledger, e: SaviorEvent, safeHandler: Address, ev: Event)
    ensures var r := Applied(ledger, e, safeHandler, ev);
      && r.balances.Keys == ledger.balances.Keys + {SaviorId(ev.address, safeHandler)}
      && r.changes.Keys == ledger.changes.Keys + {ev.uid}
      && (forall id | id in ledger.balances && id != SaviorId(ev.address, safeHandler) ::
            r.balances[id] == ledger.balances[id])
      && (forall u | u in ledger.changes && u != ev.uid :: r.changes[u] == ledger.changes[u])
    ensures var loaded := LoadedSaviorBalance(ledger.balances, ev.address, safeHandler, ev);
      var r := Applied(ledger, e, safeHandler, ev);
      var b := r.balances[SaviorId(ev.address, safeHandler)];
      var c := r.changes[ev.uid];
      && b.balance == loaded.balance + c.deltaBalance
      && b == loaded.(balance := b.balance)
      && c.saviorAddress == ev.address && c.address == safeHandler && c.created == StampOf(ev)
  {
    var loaded := LoadedSaviorBalance(ledger.balances, ev.address, safeHandler, ev);
    NewAmountIsDelta(e, loaded.balance);
  }

  /** The balance stored for the subject, zero when there is no record. */
  function SavedBalance(balances: map<string, SaviorBalance>, savior: Address, safeHandler: Address): real {
    var id := SaviorId(savior, safeHandler);
    if id in balances then balances[id].balance else ZERO
  }

  /** A change record counts its delta toward its own subject only. */
  function DeltaOf(savior: Address, safeHandler: Address): SaviorBalanceChange -> real {
    (c: SaviorBalanceChange) => if c.saviorAddress == savior && c.address == safeHandler then c.deltaBalance else 0.0
  }

  /** Every subject's balance is the sum of the deltas recorded for it. */
  ghost predicate BalancesAreSums(ledger: Ledger) {
    forall savior: Address, safeHandler: Address ::
      SavedBalance(ledger.balances, savior, safeHandler) == Total(ledger.changes, DeltaOf(savior, safeHandler))
  }

  /** The empty store satisfies the invariant. */
  lemma EmptyBalancesAreSums()
    ensures BalancesAreSums(Ledger(map[], map[]))
  {
    forall savior: Address, safeHandler: Address
      ensures SavedBalance(map[], savior, safeHandler) == Total(map[], DeltaOf(savior, safeHandler))
    {
      SumOverZero(map[], {}, DeltaOf(savior, safeHandler));
    }
  }

  /** Each handler keeps every balance equal to the sum of its recorded deltas,
      provided the event's uid is new, so that no change record is overwritten. */
  lemma {:induction false} AppliedKeepsSums(ledger: Ledger, e: SaviorEvent, safeHandler: Address, ev: Event)
    requires BalancesAreSums(ledger)
    requires ev.uid !in ledger.changes
    ensures BalancesAreSums(Applied(ledger, e, safeHandler, ev))
  {
    var after := Applied(ledger, e, safeHandler, ev);
    AppliedShape(ledger, e, safeHandler, ev);
    forall savior: Address, handler: Address
      ensures SavedBalance(after.balances, savior, handler) == Total(after.changes, DeltaOf(savior, handler))
    {
      var w := DeltaOf(savior, handler);
      assert SavedBalance(ledger.balances, savior, handler) == Total(ledger.changes, w);
      forall k | k != ev.uid ensures Weight(ledger.changes, k, w) == Weight(after.changes, k, w) {
      }
      TotalChange(ledger.changes, after.changes, w, ev.uid);
      SaviorIdInjective(savior, handler, ev.address, safeHandler);
      if savior == ev.address && handler == safeHandler {
        assert Weight(after.changes, ev.uid, w) == after.changes[ev.uid].deltaBalance;
      } else {
        assert Weight(after.changes, ev.uid, w) == 0.0;
      }
    }
  }

  /** `getOrCreateSaviorBalance`: the stored record or a new zero one; either way
      it is saved. */
  method GetOrCreateSaviorBalance(st: Store, savior: Address, safeHandler: Address, ev: Event)
    returns (balance: SaviorBalance)
    modifies st`saviorBalances
    ensures balance == LoadedSaviorBalance(old(st.saviorBalances), savior, safeHandler, ev)
    ensures st.saviorBalances == old(st.saviorBalances)[SaviorId(savior, safeHandler) := balance]
  {
    var id := SaviorId(savior, safeHandler);
    if id in st.saviorBalances {
      balance := st.saviorBalances[id];
    } else {
      balance := SaviorBalance(id, savior, safeHandler, ZERO, StampOf(ev));
    }
    st.saviorBalances := st.saviorBalances[id := balance];
  }

  /** `handleSaveSAFE`: record the negated balance as the delta, then wipe it. */
  method HandleSaveSAFE(st: Store, safeHandler: Address, ev: Event)
    modifies st`saviorBalances, st`saviorChanges
    ensures Ledger(st.saviorBalances, st.saviorChanges)
            == Applied(Ledger(old(st.saviorBalances), old(st.saviorChanges)), SaveSafe, safeHandler, ev)
  {
    ghost var loaded := LoadedSaviorBalance(st.saviorBalances, ev.address, safeHandler, ev);
    var balance := GetOrCreateSaviorBalance(st, ev.address, safeHandler, ev);
    assert balance == loaded;
    var change := SaviorBalanceChange(ev.uid, ev.address, safeHandler, -balance.balance, StampOf(ev));
    st.saviorChanges := st.saviorChanges[ev.uid := change];
    balance := balance.(balance := ZERO);
    st.saviorBalances := st.saviorBalances[SaviorId(ev.address, safeHandler) := balance];
  }

  /** `handleDeposit`: add the deposited amount, then record it as the delta. */
  method HandleDeposit(st: Store, safeHandler: Address, lpTokenAmount: int, ev: Event)
    modifies st`saviorBalances, st`saviorChanges
    ensures Ledger(st.saviorBalances, st.saviorChanges)
            == Applied(Ledger(old(st.saviorBalances), old(st.saviorChanges)), Deposit(lpTokenAmount), safeHandler, ev)
  {
    ghost var loaded := LoadedSaviorBalance(st.saviorBalances, ev.address, safeHandler, ev);
    var balance := GetOrCreateSaviorBalance(st, ev.address, safeHandler, ev);
    assert balance == loaded;
    balance := balance.(balance := balance.balance + FromWad(lpTokenAmount));
    st.saviorBalances := st.saviorBalances[SaviorId(ev.address, safeHandler) := balance];
    var change := SaviorBalanceChange(ev.uid, ev.address, safeHandler, FromWad(lpTokenAmount), StampOf(ev));
    st.saviorChanges := st.saviorChanges[ev.uid := change];
  }

  /** `handleWithdraw`: subtract the withdrawn amount, then record its negation
      as the delta. */
  method HandleWithdraw(st: Store, safeHandler: Address, lpTokenAmount: int, ev: Event)
    modifies st`saviorBalances, st`saviorChanges
    ensures Ledger(st.saviorBalances, st.saviorChanges)
            == Applied(Ledger(old(st.saviorBalances), old(st.saviorChanges)), Withdraw(lpTokenAmount), safeHandler, ev)
  {
    ghost var loaded := LoadedSaviorBalance(st.saviorBalances, ev.address, safeHandler, ev);
    var balance := GetOrCreateSaviorBalance(st, ev.address, safeHandler, ev);
    assert balance == loaded;
    balance := balance.(balance := balance.balance - FromWad(lpTokenAmount));
    st.saviorBalances := st.saviorBalances[SaviorId(ev.address, safeHandler) := balance];
    var change := SaviorBalanceChange(ev.uid, ev.address, safeHandler, -FromWad(lpTokenAmount), StampOf(ev));
    st.saviorChanges := st.saviorChanges[ev.uid := change];
  }
}
