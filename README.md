# Event-driven ledger of a stable-coin system's indexer, modelled in Dafny

This project models the core of a blockchain indexer (a subgraph) that follows a
stable-coin system: its system coin (an ERC-20 token), the Uniswap V2 pair the
coin trades in, a SAFE saviour that holds the pair's LP tokens, and the
recycling-surplus English auction house. The indexer processes one decoded event
at a time. Each handler loads or creates keyed records in an entity store, changes
some fields, and saves them back. It may also read the contracts at the event's
block.

The model keeps that shape:

- **Store.** `Schema.Store` is a class with one `map` field per entity table.
  `load` is map lookup and `save` is map update.
- **Handlers.** Every handler is a `method` that changes the tables step by step,
  as the handler does. Its `ensures` ties the new tables to a specification
  function of the old ones.
- **Properties.** What the indexer promises is proved as lemmas about those
  functions: conservation of supply, overwrite rather than accumulation, sums of
  recorded deltas, and auction invariants.
- **Values.** Decimals (BigDecimal) are `real`. Integers (BigInt) are `int`.
  Addresses are 42-character lower-case hex strings. Ids are '-' joins of
  addresses and numbers.
- **Contract reads.** `Schema.Chain` is a datatype of total functions: the
  contract's answers at the event's block.

| file | module | models |
|---|---|---|
| identifiers.dfy | Identifiers | addresses, '-' joined ids, decimal printing of numbers |
| decimal.dfy | Decimal | `src/utils/decimal.ts` |
| schema.dfy | Schema | the entities, the event, contract reads, the store |
| sums.dfy | Sums | finite sums over table records (for conservation) |
| erc20.dfy | Erc20 | `src/entities/erc20.ts` |
| transfers.dfy | Transfers | the Transfer/Approval reconciliation shared by `src/mappings/uniswap-v2.ts` and `src/mappings/coin.ts`, parameterised by the token address |
| uniswap.dfy | Uniswap | `src/entities/uniswap.ts` |
| uniswap_v2.dfy | UniswapV2 | `src/mappings/uniswap-v2.ts` |
| coin.dfy | Coin | `src/mappings/coin.ts` |
| savior.dfy | Savior | `src/mappings/savior-uniswap-lp.ts` |
| recycling_auction.dfy | RecyclingAuction | `src/mappings/recycling-auction.ts` |

Three behaviours of the code are worth stating outright:

- **A burn can leave a zero-address balance record.** The code runs
  `updateAllowance(token, destination, source)` after every transfer
  (`src/mappings/uniswap-v2.ts:121`, `src/mappings/coin.ts:59`). For a burn the
  destination is the zero address. When that allowance is missing,
  `getOrCreateERC20BAllowance` creates it, and with it a balance record for the
  zero address (`src/entities/erc20.ts:62-67`).
  - `Transfers.BurnRecordsZeroHolder` proves that this record appears.
  - `Transfers.ZeroAddressBalance` proves that the zero address's amount never
    changes, so the record created at zero stays at zero.
- **A self-transfer needs no existing record.** The destination is credited
  first, creating its record when missing. So a transfer from a holder to
  itself finds the record when the source is debited, and succeeds with no
  balance change (`Transfers.TransferAborts`, `Transfers.SelfTransferKeepsBalances`).
- **A missing record fails the event.** A `log.critical`, a missing
  configuration (`src/mappings/recycling-auction.ts:73-75`, then read at line 94)
  and a missing auction each make the handler fail. So does a decimal division
  by a zero bid (`src/mappings/recycling-auction.ts:114`). The failure is
  modelled as an `Aborted` outcome that discards every write of the event, as
  the host does for a failed handler.

## Model

| member | source | states |
|---|---|---|
| Decimal.Unscale | src/utils/decimal.ts:31-41 | the decimal times 10^p is exactly the integer, in the exact-decimal model of `divDecimal` |
| Decimal.Truncate | src/utils/decimal.ts:43-53 | `truncate(0)` rounds toward zero: same sign as the input, and less than one away from it |
| Decimal.Rescale | src/utils/decimal.ts:43-53 | `times(10^p).truncate(0)` is the integer part of x·10^p, rounded toward zero |
| Decimal.FromWad | src/utils/decimal.ts:39-41 | `fromWad(v)` times 10^18 is v: the decimal the wad integer stands for |
| Decimal.FromRay | src/utils/decimal.ts:35-37 | `fromRay(v)` times 10^27 is v |
| Decimal.FromRad | src/utils/decimal.ts:31-33 | `fromRad(v)` times 10^45 is v |
| Decimal.ToWad | src/utils/decimal.ts:51-53 | `toWad(x)` is x·10^18 rounded toward zero: same sign, less than one away |
| Decimal.ToRay | src/utils/decimal.ts:47-49 | `toRay(x)` is x·10^27 rounded toward zero |
| Decimal.ToRad | src/utils/decimal.ts:43-45 | `toRad(x)` is x·10^45 rounded toward zero |
| Decimal.ScaleConstants | src/utils/decimal.ts:55-59 | `wadBigInt`, `rayBigInt`, `radBigInt` are exactly 10^18, 10^27, 10^45 |
| Decimal.FromScaledValues | src/utils/decimal.ts:31-41 | `fromWad`, `fromRay`, `fromRad` divide by 10^18, 10^27, 10^45, exactly in the exact-decimal model |
| Decimal.ToFromRoundTrips | src/utils/decimal.ts:31-53 | in the exact-decimal model, `toWad(fromWad(n)) == n` for every integer n, and likewise for ray and rad |
| Decimal.UnscaleRescale | src/utils/decimal.ts:31-53 | a decimal with at most p fractional digits survives rescaling then unscaling |
| Decimal.FromToWadRoundTrip | src/utils/decimal.ts:39-53 | `fromWad(toWad(x)) == x` for every x with at most 18 fractional digits |
| Decimal.FromWadConstants | src/utils/decimal.ts:5-6 | `fromWad(10^18)` is ONE and `fromWad(0)` is ZERO |
| Decimal.FromWadZero | src/utils/decimal.ts:39-41 | a wad is zero as a decimal exactly when it is zero as an integer |
| Decimal.UnscaleAdditive | src/utils/decimal.ts:39-41 | unscaling is additive and commutes with negation, so wad sums can be taken on either side |
| Identifiers.JoinInjective | src/entities/erc20.ts:98-100 | a '-' join splits back into its parts when the left part has no '-' |
| Identifiers.NatToString | src/mappings/recycling-auction.ts:142-150 | `BigInt.toString` of a number: non-empty decimal digits whose value is the number, with no leading zero, one digit exactly below ten |
| Identifiers.NatToStringInjective | src/mappings/recycling-auction.ts:142-150 | distinct numbers print as distinct strings |
| Erc20.BalanceIdInjective | src/entities/erc20.ts:98-100 | `balanceId` is injective: equal ids iff equal holder and token |
| Erc20.AllowanceIdInjective | src/entities/erc20.ts:102-110 | `allowanceId` is injective: equal ids iff equal owner, token and spender |
| Erc20.IdLayout | src/entities/erc20.ts:98-110 | a balance id is the token's 42 characters, '-', the holder's 42; an allowance id adds '-' and the spender's 42 |
| Erc20.NewToken | src/entities/erc20.ts:10-17 | a new token is keyed by its address, and takes name, symbol, decimals and the wad supply from the contract |
| Erc20.GetOrCreateERC20 | src/entities/erc20.ts:7-20 | an existing token is returned as stored; otherwise a new one from contract reads, not saved |
| Erc20.WithBalance | src/entities/erc20.ts:28-44 | the holder's record is there afterwards; existing records are kept; a new one is zero |
| Erc20.KeyedRecord | src/entities/erc20.ts:98-100 | in a keyed table, the record under a holder's balance id is that holder's record for that token |
| Erc20.GetOrCreateERC20Balance | src/entities/erc20.ts:22-45 | an existing record is returned unchanged; with `canCreate` a new zero record is saved; without it the call fails and saves nothing |
| Erc20.GetOrCreateERC20BAllowance | src/entities/erc20.ts:47-81 | an existing allowance is returned unchanged; else a zero allowance linked to the owner's balance is saved, with that balance created when missing; without `canCreate` the call fails |
| Erc20.SyncedAllowances | src/entities/erc20.ts:83-96 | the (allowed as owner, approved as spender) allowance holds `fromWad(allowance(allowed, approved))`, whatever it held; it is the stored record, or a new zero one, with only the amount changed; others kept |
| Erc20.SyncedAllowancesIdempotent | src/entities/erc20.ts:89-94 | a resync repeated against the same contract state changes nothing |
| Erc20.BalancesForAllowance | src/entities/erc20.ts:62-67 | existing balances are kept; a missing allowance makes sure of the owner's balance; the only possible addition is that zero balance |
| Erc20.BalancesForAllowanceValid | src/entities/erc20.ts:62-67 | in a valid ledger, the balances written equal "make sure of the owner's balance" |
| Erc20.AllowanceWriteValid | src/entities/erc20.ts:69-79 | writing an allowance's amount keeps every record keyed and every allowance's owner balance present |
| Erc20.SyncedAllowancesValid | src/entities/erc20.ts:83-96 | a resync keeps the ledger valid |
| Erc20.UpdateAllowance | src/entities/erc20.ts:83-96 | the allowances become the resynced table and the balances the owner-ensured table |
| Transfers.MovedConserves | src/mappings/uniswap-v2.ts:77-110 | if every amount moves only by the credit and debit, the sum of non-zero holders moves by what they are credited minus debited |
| Transfers.Adjusted | src/mappings/uniswap-v2.ts:84-88 | the holder's record, created when missing, moves by exactly the delta and is stamped; every other record and amount is unchanged |
| Transfers.ResyncKeepsBalances | src/mappings/uniswap-v2.ts:121-131 | a resync keeps every balance record and adds only zero ones |
| Transfers.ResyncedKeepsBalances | src/mappings/uniswap-v2.ts:121-131 | the three resyncs keep every balance record and amount |
| Transfers.ResyncedValid | src/mappings/uniswap-v2.ts:121-131 | the three resyncs keep the ledger valid, adding exactly the three owners' balance ids |
| Transfers.Credited | src/mappings/uniswap-v2.ts:77-92 | the destination, unless the zero address, gains the amount and is stamped; every other record is kept as it was; no record is dropped |
| Transfers.Debited | src/mappings/uniswap-v2.ts:95-110 | the source, unless the zero address, loses the amount and is stamped; every other record is kept |
| Transfers.CreditedDebitedValid | src/mappings/uniswap-v2.ts:77-110 | the credit and the debit each keep the ledger valid |
| Transfers.ResyncedMoved | src/mappings/uniswap-v2.ts:77-131 | credit, debit and resyncs together move each amount by exactly its credit minus debit |
| Transfers.MovedStamps | src/mappings/uniswap-v2.ts:84-105 | the non-zero destination and source records carry the event's stamp |
| Transfers.Supplied | src/mappings/uniswap-v2.ts:89-112 | the supply grows by a mint and shrinks by a burn, and nothing else about the token changes |
| Transfers.ResyncedAllowances | src/mappings/uniswap-v2.ts:121-131 | the source's allowances with owner destination, emitter and sender hold the contract's values; all others are kept |
| Transfers.TransferEffect | src/mappings/uniswap-v2.ts:67-143 | a failed transfer leaves all four tables as they were and fails for the source's missing balance id; a completed one adds exactly the event uid to the transfer records |
| Transfers.CreditDestination | src/mappings/uniswap-v2.ts:77-92 | the store's balances become the credited table; a burn lowers the token's supply |
| Transfers.DebitSource | src/mappings/uniswap-v2.ts:95-110 | a missing non-zero source fails and changes nothing; otherwise the balances become the debited table and a mint raises the supply |
| Transfers.SyncAllowances | src/mappings/uniswap-v2.ts:121-131 | balances and allowances become those of the three resyncs in source order |
| Transfers.Transfer | src/mappings/uniswap-v2.ts:67-143 | the four tables and the outcome are exactly the transfer's effect |
| Transfers.TransferAborts | src/mappings/uniswap-v2.ts:95-101 | a transfer fails iff the source is non-zero, not the destination, and has no record; a failure changes nothing |
| Transfers.SourceFoundAfterCredit | src/mappings/uniswap-v2.ts:77-101 | after the credit the source has a record iff it had one or it is the credited (non-zero) destination |
| Transfers.TransferMoves | src/mappings/uniswap-v2.ts:77-110 | a completed transfer drops no record and moves each amount by its credit minus debit |
| Transfers.TransferStamps | src/mappings/uniswap-v2.ts:84-106 | a completed transfer stamps the non-zero destination and source records |
| Transfers.TransferKeepsLedger | src/mappings/uniswap-v2.ts:77-131 | a transfer keeps every record under its own id and every allowance's owner balance present |
| Transfers.TransferConserves | src/mappings/uniswap-v2.ts:77-112 | the sum of non-zero holders' balances moves by exactly the change in `totalSupply` |
| Transfers.TransferSupply | src/mappings/uniswap-v2.ts:89-112 | the saved supply is the loaded supply, plus a mint, minus a burn |
| Transfers.TransferKeepsOtherTokens | src/mappings/uniswap-v2.ts:70-112 | no other token changes |
| Transfers.TransferRecorded | src/mappings/uniswap-v2.ts:134-142 | one record of token, source, destination and amount is saved under the event uid; others are kept |
| Transfers.TransferSyncsAllowances | src/mappings/uniswap-v2.ts:121-131 | after a completed transfer, the three candidate allowances hold the contract's values and all others are kept |
| Transfers.SelfTransferKeepsBalances | src/mappings/uniswap-v2.ts:77-110 | a self-transfer leaves every balance amount unchanged |
| Transfers.ZeroAddressBalance | src/mappings/uniswap-v2.ts:77-92 | the amount recorded for the zero address never changes |
| Transfers.BurnRecordsZeroHolder | src/mappings/uniswap-v2.ts:121 | a burn whose (zero address, source) allowance is missing leaves a zero-address balance record, at its old amount |
| Transfers.Approved | src/mappings/uniswap-v2.ts:146-159 | the (owner, spender) allowance holds exactly `fromWad(value)`; all others are kept |
| Transfers.Approve | src/mappings/uniswap-v2.ts:146-159 | allowances become the approved table, balances the owner-ensured table |
| Transfers.ApproveKeepsLedger | src/mappings/uniswap-v2.ts:146-159 | an approval keeps the ledger valid |
| Transfers.ApprovalLastWins | src/mappings/uniswap-v2.ts:154 | two approvals of the same pair leave the last one, not a sum |
| Uniswap.GuardedRatio | src/entities/uniswap.ts:25-28 | with a non-zero denominator, the price times it is the numerator; otherwise ZERO |
| Uniswap.PricesReciprocal | src/entities/uniswap.ts:25-28 | with both reserves non-zero the two prices multiply to ONE; with either reserve zero both prices are ZERO |
| Uniswap.NewPair | src/entities/uniswap.ts:13-37 | id and address are the pair address; tokens, wad reserves and supply come from the contract; prices follow the guarded rule; created == modified == the event's stamp |
| Uniswap.LoadedPairValid | src/entities/uniswap.ts:10-42 | loading keeps every pair under its address with consistent prices |
| Uniswap.GetOrCreateUniPool | src/entities/uniswap.ts:6-43 | an existing pair is returned unchanged and the table is untouched; else the new pair is returned and saved |
| UniswapV2.SyncedPair | src/mappings/uniswap-v2.ts:23-36 | the synced pair holds the event's reserves, the guarded prices, the contract's supply and the event's stamp, and keeps identity, tokens and creation stamp |
| UniswapV2.SyncedPairs | src/mappings/uniswap-v2.ts:21-36 | a Sync writes exactly the emitting pair's key and keeps every other pair |
| UniswapV2.SyncKeepsPairsValid | src/mappings/uniswap-v2.ts:22-38 | a Sync keeps every pair under its address with consistent prices |
| UniswapV2.SyncIdempotent | src/mappings/uniswap-v2.ts:23-32 | reserves are overwritten, so a replayed Sync changes nothing |
| UniswapV2.HandleSync | src/mappings/uniswap-v2.ts:21-49 | the pairs become the synced table; one sync record with the event's reserves is saved under the event uid |
| UniswapV2.HandleSwap | src/mappings/uniswap-v2.ts:52-64 | only one swap record is inserted under the event uid; nothing else may change |
| UniswapV2.HandleTransfer | src/mappings/uniswap-v2.ts:67-73 | the shared transfer with the emitting pair as the token and `fromWad(value)` as the amount |
| UniswapV2.HandleApproval | src/mappings/uniswap-v2.ts:146-159 | the shared approval with the emitting pair as the token |
| Coin.HandleTransfer | src/mappings/coin.ts:15-75 | the shared transfer with the data-source address as the token |
| Coin.CoinTransferUsesDataSource | src/mappings/coin.ts:16-74 | only the coin balances of `src` and `dst` can change, and the transfer record names the data-source address |
| Coin.HandleApproval | src/mappings/coin.ts:77-90 | the (`src`, `guy`) allowance of the coin is overwritten with `fromWad(amount)` |
| Savior.SaviorIdInjective | src/mappings/savior-uniswap-lp.ts:81-83 | `saviorId` is injective |
| Savior.SaviorIdLayout | src/mappings/savior-uniswap-lp.ts:81-83 | a saviour id is the saviour's 42 characters, '-', the handler's 42 |
| Savior.NewSaviorBalance | src/mappings/savior-uniswap-lp.ts:67-76 | a new record is zero, under `saviorId(savior, handler)`, naming both, stamped with the event |
| Savior.NewAmountIsDelta | src/mappings/savior-uniswap-lp.ts:13-58 | each handler writes the loaded balance plus the recorded delta; SaveSAFE wipes and records the negation; deposit and withdraw record ±`fromWad(lpTokenAmount)` |
| Savior.AppliedShape | src/mappings/savior-uniswap-lp.ts:13-58 | one balance is rewritten to old + delta; one change record naming the subject is added under the event uid; all else kept |
| Savior.Applied | src/mappings/savior-uniswap-lp.ts:13-58 | the subject's balance after any saviour event is its balance before (zero when missing) plus the delta recorded under the event uid |
| Savior.EmptyBalancesAreSums | src/mappings/savior-uniswap-lp.ts:13-58 | the empty store satisfies "balance = sum of recorded deltas" |
| Savior.AppliedKeepsSums | src/mappings/savior-uniswap-lp.ts:13-58 | with a fresh event uid, every handler keeps each subject's balance equal to the sum of its change records |
| Savior.GetOrCreateSaviorBalance | src/mappings/savior-uniswap-lp.ts:60-79 | the stored or a new zero record is returned and saved |
| Savior.HandleSaveSAFE | src/mappings/savior-uniswap-lp.ts:13-28 | the tables become the SaveSAFE effect |
| Savior.HandleDeposit | src/mappings/savior-uniswap-lp.ts:30-43 | the tables become the Deposit effect |
| Savior.HandleWithdraw | src/mappings/savior-uniswap-lp.ts:45-58 | the tables become the Withdraw effect |
| RecyclingAuction.AuctionIdInjective | src/mappings/recycling-auction.ts:142-144 | `auctionId` is injective |
| RecyclingAuction.BidAuctionIdInjective | src/mappings/recycling-auction.ts:146-150 | `bidAuctionId` is injective, so distinct bid numbers of an auction give distinct ids |
| RecyclingAuction.IdLayout | src/mappings/recycling-auction.ts:142-150 | an auction id is "RECYCLING_SURPLUS-" then digits whose value is the auction number; a bid id is the auction id, '-', then digits whose value is the bid number |
| RecyclingAuction.ConfigurationLastWins | src/mappings/recycling-auction.ts:35-50 | the configuration holds the last contract reads, whatever was written before |
| RecyclingAuction.Configured | src/mappings/recycling-auction.ts:35-50 | the single configuration exists afterwards and holds the three parameters read from the emitting contract; no other key is added |
| RecyclingAuction.InitializeAuctionHouse | src/mappings/recycling-auction.ts:35-50 | the configurations become the configured table |
| RecyclingAuction.StartCreates | src/mappings/recycling-auction.ts:70-97 | start fails iff there is no configuration; else the auction has no bids, is unclaimed, has no price or winner, sells and asks its initial amounts, and ends at the configured length after the event |
| RecyclingAuction.Started | src/mappings/recycling-auction.ts:70-97 | fails iff there is no configuration; otherwise adds only the auction's key and leaves configuration and bids alone |
| RecyclingAuction.HandleStartAuction | src/mappings/recycling-auction.ts:70-97 | the tables and the outcome are the start's effect |
| RecyclingAuction.BidNumbering | src/mappings/recycling-auction.ts:99-128 | a bid fails iff the auction is missing or the amount is zero. Otherwise its number is the old bid count, the count grows by one, it sells the initial amount at sell / buy, and the auction takes its amounts, price, bidder and expiry |
| RecyclingAuction.BidIncreased | src/mappings/recycling-auction.ts:99-128 | fails iff the auction is missing or the amount is zero; otherwise adds no auction and leaves the configuration alone |
| RecyclingAuction.WadBidFails | src/mappings/recycling-auction.ts:52-60 | a wad bid fails iff the auction is missing or the wad is zero |
| RecyclingAuction.IncreaseBidSize | src/mappings/recycling-auction.ts:99-128 | the tables and the outcome are the bid's effect |
| RecyclingAuction.HandleIncreaseBidSize | src/mappings/recycling-auction.ts:52-60 | the bid's effect with `fromWad(bid)` as the amount |
| RecyclingAuction.RestartAuction | src/mappings/recycling-auction.ts:130-134 | the tables and the outcome are the restart's effect |
| RecyclingAuction.SettleAuction | src/mappings/recycling-auction.ts:136-140 | the tables and the outcome are the settlement's effect |
| RecyclingAuction.RestartAndSettleTouchOneField | src/mappings/recycling-auction.ts:130-140 | restart changes only the deadline, and settle only `isClaimed`; bids and configuration untouched; both fail iff the auction is missing |
| RecyclingAuction.Restarted | src/mappings/recycling-auction.ts:130-134 | fails iff the auction is missing; otherwise the auction has the new deadline and no key, configuration or bid changes |
| RecyclingAuction.Settled | src/mappings/recycling-auction.ts:136-140 | fails iff the auction is missing; otherwise the auction is claimed and no key, configuration or bid changes |
| RecyclingAuction.SettleIdempotent | src/mappings/recycling-auction.ts:136-140 | settling twice is settling once |
| RecyclingAuction.StartKeepsValid | src/mappings/recycling-auction.ts:70-97 | start keeps every auction valid: keyed by number, sell amount pinned, price and winner iff bids, bids 0..n-1 stored, latest bid matches |
| RecyclingAuction.OwnBidExtendsRecorded | src/mappings/recycling-auction.ts:107-127 | a bid extends its auction's numbered bids by one, as the latest |
| RecyclingAuction.OtherBidKeepsRecorded | src/mappings/recycling-auction.ts:107-119 | a bid under another id keeps an auction's recorded bids |
| RecyclingAuction.BidKeepsValid | src/mappings/recycling-auction.ts:99-128 | a bid keeps every auction valid |
| RecyclingAuction.RestartKeepsValid | src/mappings/recycling-auction.ts:130-134 | a restart keeps every auction valid |
| RecyclingAuction.SettleKeepsValid | src/mappings/recycling-auction.ts:136-140 | a settlement keeps every auction valid |

## Left out

- The host entity store, generated schema classes and contract bindings. Load and save are map operations. Contract reads are the total functions of `Schema.Chain`; a failed read belongs to the host.
- `log.info` and `log.error` output (`src/mappings/recycling-auction.ts:38`, `:74`). A `log.critical` is modelled only as a failure outcome.
- `eventUid` (`src/utils/ethereum.ts`) is not part of this model. The event carries its uid, and the freshness of a uid is a hypothesis where a property needs it (`Savior.AppliedKeepsSums`).
- `src/utils/integer.ts` is not part of this model. Its ZERO and ONE are `0` and `1`.
- The thin entry points `handleAddAuthorization`, `handleModifyParametersUint` and `handleModifyParametersAddress` only call `initializeAuctionHouse`. `handleRestartAuction` and `handleSettleAuction` only pass the event's fields on. They are modelled by `InitializeAuctionHouse`, `RestartAuction` and `SettleAuction`.
- Decimal division is exact `real` division. The host's BigDecimal keeps a bounded number of significant digits, so its rounding is not modelled. This covers the price divisions (`src/entities/uniswap.ts:25-28`, `src/mappings/uniswap-v2.ts:26-28`, `src/mappings/recycling-auction.ts:114`). It also covers `divDecimal` in `fromWad`, `fromRay` and `fromRad` (`src/utils/decimal.ts:31-41`).
- Decimal.Unscale, Decimal.FromWad, Decimal.FromRay, Decimal.FromRad, Decimal.FromScaledValues: exact only in the exact-decimal model. On the host, a large integer is rounded when divided by the scale.
- Decimal.ToFromRoundTrips, Decimal.FromToWadRoundTrip, Decimal.UnscaleRescale: the round trips hold in the exact-decimal model. On the host they can fail for integers with more significant digits than BigDecimal keeps.
- Decimal.Rescale, Decimal.ToWad, Decimal.ToRay, Decimal.ToRad: model `truncate(0).digits` as the integer value of the truncated decimal. The host's internal digits/exponent representation of a decimal is not modelled.
- Hex formatting: an address is its 42-character lower-case hex string. Id injectivity rests only on hex strings having no '-'.
- Block timestamps, numbers and transaction hashes are carried as opaque `Stamp` values.
- Concurrency and re-ordering of events: handlers run one event at a time, in order.
