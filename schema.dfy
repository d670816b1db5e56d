/** The entities the ledger stores, the event every handler receives, the contract
    reads it may make, and the entity store itself: one table (a map from id to
    record) per entity kind, with `load` as lookup and `save` as map update. */
module Schema {
  import opened Identifiers

  /** Block timestamp, block number and transaction hash of the event that last
      created or modified a record. */
  datatype Stamp = Stamp(at: int, atBlock: int, atTransaction: string)

  /** The parts of a decoded event that every handler may use. `uid` is the
      event's unique id (`eventUid`): distinct events carry distinct uids. */
  datatype Event = Event(
    address: Address,
    uid: string,
    blockNumber: int,
    timestamp: int,
    txHash: string,
    txFrom: Address)

  function StampOf(ev: Event): Stamp {
    Stamp(ev.timestamp, ev.blockNumber, ev.txHash)
  }

  /** On-chain read-only calls, as seen at the block of the event being processed.
      Each member takes the address of the contract that is read. */
  datatype Chain = Chain(
    name: Address -> string,
    symbol: Address -> string,
    decimals: Address -> int,
    totalSupply: Address -> int,
    allowance: (Address, Address, Address) -> int,
    token0: Address -> Address,
    token1: Address -> Address,
    reserves: Address -> (int, int),
    bidIncrease: Address -> int,
    bidDuration: Address -> int,
    totalAuctionLength: Address -> int)

  /** Why a handler aborts: a record that must exist is missing, or a division
      by zero in a decimal. */
  datatype Failure =
    | MissingBalance(id: string)
    | MissingAllowance(id: string)
    | MissingConfiguration
    | MissingAuction(id: string)
    | DivisionByZero(id: string)

  datatype Result<T> = Ok(value: T) | Fatal(failure: Failure)

  datatype Outcome = Done | Aborted(failure: Failure)

  datatype Token = Token(
    id: string,
    name: string,
    symbol: string,
    decimals: int,
    totalSupply: real)

  datatype Balance = Balance(
    id: string,
    tokenAddress: Address,
    address: Address,
    balance: real,
    modified: Stamp)

  datatype Allowance = Allowance(
    id: string,
    tokenAddress: Address,
    address: Address,
    balance: string,
    approvedAddress: Address,
    amount: real,
    modified: Stamp)

  datatype TransferRecord = TransferRecord(
    id: string,
    tokenAddress: Address,
    source: Address,
    destination: Address,
    amount: real,
    created: Stamp)

  datatype Pair = Pair(
    id: string,
    address: Address,
    token0: Address,
    token1: Address,
    reserve0: real,
    reserve1: real,
    token0Price: real,
    token1Price: real,
    totalSupply: real,
    created: Stamp,
    modified: Stamp)

  datatype SyncRecord = SyncRecord(
    id: string,
    reserve0: real,
    reserve1: real,
    pair: string,
    created: Stamp)

  datatype SwapRecord = SwapRecord(
    id: string,
    pair: string,
    amount0In: real,
    amount1In: real,
    amount0Out: real,
    amount1Out: real,
    sender: Address,
    created: Stamp)

  datatype SaviorBalance = SaviorBalance(
    id: string,
    saviorAddress: Address,
    address: Address,
    balance: real,
    created: Stamp)

  datatype SaviorBalanceChange = SaviorBalanceChange(
    id: string,
    saviorAddress: Address,
    address: Address,
    deltaBalance: real,
    created: Stamp)

  datatype AuctionConfiguration = AuctionConfiguration(
    id: string,
    bidIncrease: real,
    bidDuration: int,
    totalAuctionLength: int)

  datatype Option<T> = None | Some(value: T)

  /** `price` and `winner` stay unset until the first bid. */
  datatype Auction = Auction(
    id: string,
    auctionId: nat,
    numberOfBids: nat,
    englishAuctionType: string,
    buyToken: string,
    sellToken: string,
    sellInitialAmount: real,
    buyInitialAmount: real,
    sellAmount: real,
    buyAmount: real,
    price: Option<real>,
    winner: Option<Address>,
    startedBy: Address,
    isClaimed: bool,
    created: Stamp,
    configuration: string,
    auctionDeadline: int)

  datatype AuctionBid = AuctionBid(
    id: string,
    bidNumber: nat,
    bidType: string,
    auction: string,
    sellAmount: real,
    buyAmount: real,
    price: real,
    bidder: Address,
    created: Stamp)

  /** The entity store, one table per entity kind. */
  class Store {
    var tokens: map<string, Token>
    var balances: map<string, Balance>
    var allowances: map<string, Allowance>
    var transfers: map<string, TransferRecord>
    var pairs: map<string, Pair>
    var syncs: map<string, SyncRecord>
    var swaps: map<string, SwapRecord>
    var saviorBalances: map<string, SaviorBalance>
    var saviorChanges: map<string, SaviorBalanceChange>
    var configurations: map<string, AuctionConfiguration>
    var auctions: map<string, Auction>
    var bids: map<string, AuctionBid>

    constructor ()
      ensures tokens == map[] && balances == map[] && allowances == map[] && transfers == map[]
      ensures pairs == map[] && syncs == map[] && swaps == map[]
      ensures saviorBalances == map[] && saviorChanges == map[]
      ensures configurations == map[] && auctions == map[] && bids == map[]
    {
      tokens, balances, allowances, transfers := map[], map[], map[], map[];
      pairs, syncs, swaps := map[], map[], map[];
      saviorBalances, saviorChanges := map[], map[];
      configurations, auctions, bids := map[], map[], map[];
    }
  }
}
