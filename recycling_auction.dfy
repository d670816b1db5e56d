/** The recycling-surplus English auction house: one configuration record, and
    per auction a record that bids update, plus one record per bid. Bids are
    numbered from zero, strictly in sequence, and never change the amount sold. */
module RecyclingAuction {
  import opened Identifiers
  import opened Decimal
  import opened Schema

  const RecyclingSurplus: string := "RECYCLING_SURPLUS"
  const IncreaseBuy: string := "INCREASE_BUY"
  const ProtocolToken: string := "PROTOCOL_TOKEN"
  const CoinToken: string := "COIN"

  lemma RecyclingSurplusNoSeparator()
    ensures NoSeparator(RecyclingSurplus)
  {
  }

  /** `auctionId`: "RECYCLING_SURPLUS-" and the auction number in decimal. */
  function AuctionId(id: nat): string {
    Join(RecyclingSurplus, NatToString(id))
  }

  /** `bidAuctionId`: the auction id, '-', and the bid number in decimal. */
  function BidAuctionId(id: nat, bidNumber: nat): string {
    Join(AuctionId(id), NatToString(bidNumber))
  }

  /** An auction id is "RECYCLING_SURPLUS-" followed by digits that denote the
      auction number; a bid id is the auction id, '-', and digits that denote
      the bid number. */
  lemma IdLayout(id: nat, bidNumber: nat)
    ensures var r := AuctionId(id);
      && |r| > 18 && r[..18] == RecyclingSurplus + "-"
      && (forall i | 18 <= i < |r| :: '0' <= r[i] <= '9')
      && DigitsValue(r[18..]) == id
    ensures var prefix, r := AuctionId(id), BidAuctionId(id, bidNumber);
      && |r| > |prefix| + 1 && r[..|prefix|] == prefix && r[|prefix|] == '-'
      && (forall i | |prefix| < i < |r| :: '0' <= r[i] <= '9')
      && DigitsValue(r[|prefix| + 1..]) == bidNumber
  {
    var a := AuctionId(id);
    assert a[18..] == NatToString(id);
    var b := BidAuctionId(id, bidNumber);
    assert b[..|a|] == a && b[|a| + 1..] == NatToString(bidNumber);
  }

  lemma AuctionIdInjective(m: nat, n: nat)
    ensures AuctionId(m) == AuctionId(n) <==> m == n
  {
    if AuctionId(m) == AuctionId(n) {
      RecyclingSurplusNoSeparator();
      JoinInjective(RecyclingSurplus, NatToString(m), RecyclingSurplus, NatToString(n));
      NatToStringInjective(m, n);
    }
  }

  /** Distinct (auction, bid number) pairs give distinct bid ids; in particular
      the bids of one auction never share an id. */
  lemma BidAuctionIdInjective(m: nat, j: nat, n: nat, k: nat)
    ensures BidAuctionId(m, j) == BidAuctionId(n, k) <==> m == n && j == k
  {
    if BidAuctionId(m, j) == BidAuctionId(n, k) {
      RecyclingSurplusNoSeparator();
      NatToStringNoSeparator(m);
      NatToStringNoSeparator(n);
      JoinAssociative(RecyclingSurplus, NatToString(m), NatToString(j));
      JoinAssociative(RecyclingSurplus, NatToString(n), NatToString(k));
      JoinInjective(RecyclingSurplus, Join(NatToString(m), NatToString(j)),
                    RecyclingSurplus, Join(NatToString(n), NatToString(k)));
      JoinInjective(NatToString(m), NatToString(j), NatToString(n), NatToString(k));
      NatToStringInjective(m, n);
      NatToStringInjective(j, k);
    }
  }

  /** The three tables of the auction house. */
  datatype AuctionHouse = AuctionHouse(
    configurations: map<string, AuctionConfiguration>,
    auctions: map<string, Auction>,
    bids: map<string, AuctionBid>)

  /** A handler's effect: the new tables, or the failure that discards its writes. */
  predicate Commits(effect: Result<AuctionHouse>, before: AuctionHouse, after: AuctionHouse, outcome: Outcome) {
    if effect.Ok? then outcome == Done && after == effect.value
    else outcome == Aborted(effect.failure) && after == before
  }

  /** The configuration table after `initializeAuctionHouse`: the single
      configuration, created when missing, takes all three parameters from the
      auction house contract that emitted the event. */
  function Configured(configurations: map<string, AuctionConfiguration>, ev: Event, chain: Chain)
    : (r: map<string, AuctionConfiguration>)
    ensures r.Keys == configurations.Keys + {RecyclingSurplus}
    ensures r[RecyclingSurplus].bidIncrease == FromWad(chain.bidIncrease(ev.address))
    ensures r[RecyclingSurplus].bidDuration == chain.bidDuration(ev.address)
    ensures r[RecyclingSurplus].totalAuctionLength == chain.totalAuctionLength(ev.address)
  {
    var config := if RecyclingSurplus in configurations then configurations[RecyclingSurplus]
                  else AuctionConfiguration(RecyclingSurplus, ZERO, 0, 0);
    configurations[RecyclingSurplus := config.(bidIncrease := FromWad(chain.bidIncrease(ev.address)),
                                               bidDuration := chain.bidDuration(ev.address),
                                               totalAuctionLength := chain.totalAuctionLength(ev.address))]
  }

  /** Every parameter is overwritten: a second initialisation leaves what it
      read, whatever the first one wrote. */
  lemma ConfigurationLastWins(configurations: map<string, AuctionConfiguration>, ev1: Event, chain1: Chain,
                              ev2: Event, chain2: Chain)
    ensures Configured(Configured(configurations, ev1, chain1), ev2, chain2) == Configured(configurations, ev2, chain2)
    ensures var c := Configured(configurations, ev2, chain2)[RecyclingSurplus];
      && c.bidIncrease == FromWad(chain2.bidIncrease(ev2.address))
      && c.bidDuration == chain2.bidDuration(ev2.address)
      && c.totalAuctionLength == chain2.totalAuctionLength(ev2.address)
  {
  }

  /** `initializeAuctionHouse`: load or create the configuration, overwrite its
      parameters from contract reads, save it. */
  method InitializeAuctionHouse(st: Store, ev: Event, chain: Chain)
    modifies st`configurations
    ensures st.configurations == Configured(old(st.configurations), ev, chain)
  {
    var config: AuctionConfiguration;
    if RecyclingSurplus in st.configurations {
      config := st.configurations[RecyclingSurplus];
    } else {
      config := AuctionConfiguration(RecyclingSurplus, ZERO, 0, 0);
    }
    config := config.(bidIncrease := FromWad(chain.bidIncrease(ev.address)));
    config := config.(bidDuration := chain.bidDuration(ev.address));
    config := config.(totalAuctionLength := chain.totalAuctionLength(ev.address));
    st.configurations := st.configurations[RecyclingSurplus := config];
  }

  /** The auction a StartAuction creates, given the configured total length. */
  function NewAuction(id: nat, amountToSell: int, initialBid: int, totalAuctionLength: int, ev: Event): Auction {
    var sell, buy := FromWad(amountToSell), FromWad(initialBid);
    Auction(AuctionId(id), id, 0, RecyclingSurplus, ProtocolToken, CoinToken, sell, buy, sell, buy, None, None,
            ev.address, false, StampOf(ev), RecyclingSurplus, totalAuctionLength + ev.timestamp)
  }

  /** `handleStartAuction`: a new auction under `auctionId(id)`; without a
      configuration the deadline cannot be computed and the event fails. */
  function Started(house: AuctionHouse, id: nat, amountToSell: int, initialBid: int, ev: Event)
    : (r: Result<AuctionHouse>)
    ensures r.Fatal? <==> RecyclingSurplus !in house.configurations
    ensures r.Ok? ==> && r.value.configurations == house.configurations && r.value.bids == house.bids
                      && r.value.auctions.Keys == house.auctions.Keys + {AuctionId(id)}
  {
    if RecyclingSurplus !in house.configurations then Fatal(MissingConfiguration)
    else
      var length := house.configurations[RecyclingSurplus].totalAuctionLength;
      Ok(house.(auctions := house.auctions[AuctionId(id) := NewAuction(id, amountToSell, initialBid, length, ev)]))
  }

  /** A StartAuction fails exactly when there is no configuration. Otherwise the
      auction starts with no bids, unclaimed, without price or winner, selling
      and asking its initial amounts, with the deadline the configured length
      after the event; nothing else changes. */
  lemma StartCreates(house: AuctionHouse, id: nat, amountToSell: int, initialBid: int, ev: Event)
    ensures Started(house, id, amountToSell, initialBid, ev).Fatal? <==> RecyclingSurplus !in house.configurations
    ensures Started(house, id, amountToSell, initialBid, ev).Fatal? ==>
      Started(house, id, amountToSell, initialBid, ev).failure == MissingConfiguration
    ensures var r := Started(house, id, amountToSell, initialBid, ev);
      r.Ok? ==>
        var a := r.value.auctions[AuctionId(id)];
        && a.id == AuctionId(id) && a.auctionId == id
        && a.numberOfBids == 0 && !a.isClaimed && a.price == None && a.winner == None
        && a.sellAmount == a.sellInitialAmount == FromWad(amountToSell)
        && a.buyAmount == a.buyInitialAmount == FromWad(initialBid)
        && a.auctionDeadline == house.configurations[RecyclingSurplus].totalAuctionLength + ev.timestamp
        && a.created == StampOf(ev) && a.startedBy == ev.address
        && r.value.configurations == house.configurations && r.value.bids == house.bids
        && (forall key | key in house.auctions && key != AuctionId(id) :: r.value.auctions[key] == house.auctions[key])
  {
  }

  method HandleStartAuction(st: Store, id: nat, amountToSell: int, initialBid: int, ev: Event)
    returns (outcome: Outcome)
    modifies st`auctions
    ensures Commits(Started(AuctionHouse(old(st.configurations), old(st.auctions), old(st.bids)),
                            id, amountToSell, initialBid, ev),
                    AuctionHouse(old(st.configurations), old(st.auctions), old(st.bids)),
                    AuctionHouse(st.configurations, st.auctions, st.bids), outcome)
  {
    if RecyclingSurplus !in st.configurations {
      return Aborted(MissingConfiguration);
    }
    var config := st.configurations[RecyclingSurplus];
    var sellInitialAmount := FromWad(amountToSell);
    var buyInitialAmount := FromWad(initialBid);
    var auction := Auction(AuctionId(id), id, 0, RecyclingSurplus, ProtocolToken, CoinToken,
                           sellInitialAmount, buyInitialAmount, sellInitialAmount, buyInitialAmount,
                           None, None, ev.address, false, StampOf(ev), RecyclingSurplus,
                           config.totalAuctionLength + ev.timestamp);
    st.auctions := st.auctions[AuctionId(id) := auction];
    outcome := Done;
  }

  /** The bid record of an IncreaseBidSize on auction `a`: numbered by the bids
      the auction already has, selling the auction's initial amount. */
  function BidOf(a: Auction, id: nat, bidAmount: real, highBidder: Address, ev: Event): AuctionBid
    requires bidAmount != ZERO
  {
    AuctionBid(BidAuctionId(id, a.numberOfBids), a.numberOfBids, IncreaseBuy, a.id, a.sellInitialAmount, bidAmount,
               a.sellInitialAmount / bidAmount, highBidder, StampOf(ev))
  }

  /** `increaseBidSize`: the bid is stored, and the auction counts it and takes
      its amounts, price, bidder and expiry. A missing auction, or a zero bid
      amount (the price divides by it), fails the event. */
  function BidIncreased(house: AuctionHouse, id: nat, bidAmount: real, highBidder: Address, bidExpiry: int,
                        ev: Event): (r: Result<AuctionHouse>)
    ensures r.Fatal? <==> AuctionId(id) !in house.auctions || bidAmount == ZERO
    ensures r.Ok? ==> r.value.configurations == house.configurations && r.value.auctions.Keys == house.auctions.Keys
  {
    var key := AuctionId(id);
    if key !in house.auctions then Fatal(MissingAuction(key))
    else
      var a := house.auctions[key];
      if bidAmount == ZERO then Fatal(DivisionByZero(BidAuctionId(id, a.numberOfBids)))
      else
        var b := BidOf(a, id, bidAmount, highBidder, ev);
        var updated := a.(numberOfBids := a.numberOfBids + 1, auctionDeadline := bidExpiry,
                          sellAmount := b.sellAmount, buyAmount := b.buyAmount,
                          price := Some(b.price), winner := Some(b.bidder));
        Ok(house.(auctions := house.auctions[key := updated], bids := house.bids[b.id := b]))
  }

  /** A bid fails exactly when the auction is missing or the bid amount is zero.
      On success the bid gets the auction's bid count as its number and the
      matching id, and sells the initial amount at price sell / buy; the
      auction's count grows by one, and it takes the bid's amounts, price and
      bidder and the new expiry, and keeps everything else. */
  lemma BidNumbering(house: AuctionHouse, id: nat, bidAmount: real, highBidder: Address, bidExpiry: int, ev: Event)
    ensures var r := BidIncreased(house, id, bidAmount, highBidder, bidExpiry, ev);
      && (r.Fatal? <==> AuctionId(id) !in house.auctions || bidAmount == ZERO)
      && (AuctionId(id) !in house.auctions ==> r == Fatal(MissingAuction(AuctionId(id))))
    ensures var r := BidIncreased(house, id, bidAmount, highBidder, bidExpiry, ev);
      r.Ok? ==>
        var a := house.auctions[AuctionId(id)];
        var a' := r.value.auctions[AuctionId(id)];
        var b := r.value.bids[BidAuctionId(id, a.numberOfBids)];
        && b.bidNumber == a.numberOfBids && b.auction == a.id
        && b.sellAmount == a.sellInitialAmount && b.buyAmount == bidAmount
        && b.price * bidAmount == a.sellInitialAmount && b.bidder == highBidder
        && a'.numberOfBids == a.numberOfBids + 1
        && a'.sellAmount == a.sellInitialAmount && a'.buyAmount == bidAmount
        && a'.price == Some(b.price) && a'.winner == Some(highBidder) && a'.auctionDeadline == bidExpiry
        && a'.id == a.id && a'.auctionId == a.auctionId && a'.isClaimed == a.isClaimed
        && a'.sellInitialAmount == a.sellInitialAmount && a'.buyInitialAmount == a.buyInitialAmount
        && r.value.configurations == house.configurations
        && r.value.auctions.Keys == house.auctions.Keys
        && (forall key | key in house.auctions && key != AuctionId(id) :: r.value.auctions[key] == house.auctions[key])
        && r.value.bids.Keys == house.bids.Keys + {BidAuctionId(id, a.numberOfBids)}
        && (forall k | k in house.bids && k != BidAuctionId(id, a.numberOfBids) :: r.value.bids[k] == house.bids[k])
  {
  }

  /** The bid amount of `handleIncreaseBidSize` is a wad, so the bid fails for a
      zero price divisor exactly when the wad is zero. */
  lemma WadBidFails(house: AuctionHouse, id: nat, bid: int, highBidder: Address, bidExpiry: int, ev: Event)
    ensures BidIncreased(house, id, FromWad(bid), highBidder, bidExpiry, ev).Fatal?
            <==> AuctionId(id) !in house.auctions || bid == 0
  {
    FromWadZero(bid);
  }

  method IncreaseBidSize(st: Store, id: nat, bidAmount: real, highBidder: Address, bidExpiry: int, ev: Event)
    returns (outcome: Outcome)
    modifies st`auctions, st`bids
    ensures Commits(BidIncreased(AuctionHouse(old(st.configurations), old(st.auctions), old(st.bids)),
                                 id, bidAmount, highBidder, bidExpiry, ev),
                    AuctionHouse(old(st.configurations), old(st.auctions), old(st.bids)),
                    AuctionHouse(st.configurations, st.auctions, st.bids), outcome)
  {
    if AuctionId(id) !in st.auctions {
      return Aborted(MissingAuction(AuctionId(id)));
    }
    var auction := st.auctions[AuctionId(id)];
    if bidAmount == ZERO {
      return Aborted(DivisionByZero(BidAuctionId(id, auction.numberOfBids)));
    }
    var bid := AuctionBid(BidAuctionId(id, auction.numberOfBids), auction.numberOfBids, IncreaseBuy, auction.id,
                          auction.sellInitialAmount, bidAmount, auction.sellInitialAmount / bidAmount,
                          highBidder, StampOf(ev));
    st.bids := st.bids[bid.id := bid];
    auction := auction.(numberOfBids := auction.numberOfBids + 1, auctionDeadline := bidExpiry,
                        sellAmount := bid.sellAmount, buyAmount := bid.buyAmount,
                        price := Some(bid.price), winner := Some(bid.bidder));
    st.auctions := st.auctions[AuctionId(id) := auction];
    outcome := Done;
  }

  /** `handleIncreaseBidSize`: the bid of the event, read as a wad. */
  method HandleIncreaseBidSize(st: Store, id: nat, bid: int, highBidder: Address, bidExpiry: int, ev: Event)
    returns (outcome: Outcome)
    modifies st`auctions, st`bids
    ensures Commits(BidIncreased(AuctionHouse(old(st.configurations), old(st.auctions), old(st.bids)),
                                 id, FromWad(bid), highBidder, bidExpiry, ev),
                    AuctionHouse(old(st.configurations), old(st.auctions), old(st.bids)),
                    AuctionHouse(st.configurations, st.auctions, st.bids), outcome)
  {
    outcome := IncreaseBidSize(st, id, FromWad(bid), highBidder, bidExpiry, ev);
  }

  /** `restartAuction`: only the deadline of the auction changes. */
  function Restarted(house: AuctionHouse, id: nat, auctionDeadline: int): (r: Result<AuctionHouse>)
    ensures r.Fatal? <==> AuctionId(id) !in house.auctions
    ensures r.Ok? ==> && r.value.configurations == house.configurations && r.value.bids == house.bids
                      && r.value.auctions.Keys == house.auctions.Keys
                      && r.value.auctions[AuctionId(id)].auctionDeadline == auctionDeadline
  {
    var key := AuctionId(id);
    if key !in house.auctions then Fatal(MissingAuction(key))
    else Ok(house.(auctions := house.auctions[key := house.auctions[key].(auctionDeadline := auctionDeadline)]))
  }

  method RestartAuction(st: Store, id: nat, auctionDeadline: int) returns (outcome: Outcome)
    modifies st`auctions
    ensures Commits(Restarted(AuctionHouse(old(st.configurations), old(st.auctions), old(st.bids)), id, auctionDeadline),
                    AuctionHouse(old(st.configurations), old(st.auctions), old(st.bids)),
                    AuctionHouse(st.configurations, st.auctions, st.bids), outcome)
  {
    if AuctionId(id) !in st.auctions {
      return Aborted(MissingAuction(AuctionId(id)));
    }
    var auction := st.auctions[AuctionId(id)];
    auction := auction.(auctionDeadline := auctionDeadline);
    st.auctions := st.auctions[AuctionId(id) := auction];
    outcome := Done;
  }

  /** `settleAuction`: only the claimed flag of the auction changes. */
  function Settled(house: AuctionHouse, id: nat): (r: Result<AuctionHouse>)
    ensures r.Fatal? <==> AuctionId(id) !in house.auctions
    ensures r.Ok? ==> && r.value.configurations == house.configurations && r.value.bids == house.bids
                      && r.value.auctions.Keys == house.auctions.Keys && r.value.auctions[AuctionId(id)].isClaimed
  {
    var key := AuctionId(id);
    if key !in house.auctions then Fatal(MissingAuction(key))
    else Ok(house.(auctions := house.auctions[key := house.auctions[key].(isClaimed := true)]))
  }

  method SettleAuction(st: Store, id: nat) returns (outcome: Outcome)
    modifies st`auctions
    ensures Commits(Settled(AuctionHouse(old(st.configurations), old(st.auctions), old(st.bids)), id),
                    AuctionHouse(old(st.configurations), old(st.auctions), old(st.bids)),
                    AuctionHouse(st.configurations, st.auctions, st.bids), outcome)
  {
    if AuctionId(id) !in st.auctions {
      return Aborted(MissingAuction(AuctionId(id)));
    }
    var auction := st.auctions[AuctionId(id)];
    auction := auction.(isClaimed := true);
    st.auctions := st.auctions[AuctionId(id) := auction];
    outcome := Done;
  }

  /** Restart and settle fail exactly when the auction is missing; otherwise
      restart changes the deadline alone and settle the claimed flag alone,
      leaving bids, amounts, price, winner and every other record as they were. */
  lemma RestartAndSettleTouchOneField(house: AuctionHouse, id: nat, auctionDeadline: int)
    ensures Restarted(house, id, auctionDeadline).Fatal? <==> AuctionId(id) !in house.auctions
    ensures Settled(house, id).Fatal? <==> AuctionId(id) !in house.auctions
    ensures AuctionId(id) in house.auctions ==>
      var a := house.auctions[AuctionId(id)];
      var restarted := Restarted(house, id, auctionDeadline).value;
      var settled := Settled(house, id).value;
      && restarted.auctions[AuctionId(id)].auctionDeadline == auctionDeadline
      && restarted.auctions[AuctionId(id)].(auctionDeadline := a.auctionDeadline) == a
      && settled.auctions[AuctionId(id)].isClaimed
      && settled.auctions[AuctionId(id)].(isClaimed := a.isClaimed) == a
      && restarted.bids == settled.bids == house.bids
      && restarted.configurations == settled.configurations == house.configurations
      && restarted.auctions.Keys == settled.auctions.Keys == house.auctions.Keys
  {
  }

  /** Settling is idempotent: settling a settled auction changes nothing. */
  lemma SettleIdempotent(house: AuctionHouse, id: nat)
    ensures Settled(house, id).Ok? ==> Settled(Settled(house, id).value, id) == Settled(house, id)
  {
    var key := AuctionId(id);
    if key in house.auctions {
      var settled := Settled(house, id).value;
      assert settled.auctions[key].(isClaimed := true) == settled.auctions[key];
      assert settled.auctions[key := settled.auctions[key]] == settled.auctions;
    }
  }

  /** The fields of an auction stored under `key` that hold by themselves: it is
      keyed by its number, it still sells its initial amount, and it has a price
      and a winner exactly once it has bids. */
  predicate AuctionShaped(key: string, a: Auction) {
    && key == AuctionId(a.auctionId) && a.id == key
    && a.sellAmount == a.sellInitialAmount
    && (a.numberOfBids == 0 <==> a.winner == None)
    && (a.numberOfBids == 0 <==> a.price == None)
  }

  /** Each bid 0 .. numberOfBids - 1 of the auction is stored under its bid id,
      with its number and a link to the auction. */
  ghost predicate BidsRecorded(bids: map<string, AuctionBid>, a: Auction) {
    forall k: nat | k < a.numberOfBids ::
      && BidAuctionId(a.auctionId, k) in bids
      && bids[BidAuctionId(a.auctionId, k)].bidNumber == k
      && bids[BidAuctionId(a.auctionId, k)].auction == a.id
  }

  /** The latest bid carries the auction's buy and sell amounts, price and winner. */
  predicate LatestBidMatches(bids: map<string, AuctionBid>, a: Auction) {
    a.numberOfBids > 0 ==>
      && BidAuctionId(a.auctionId, a.numberOfBids - 1) in bids
      && var last := bids[BidAuctionId(a.auctionId, a.numberOfBids - 1)];
      && last.buyAmount == a.buyAmount && last.sellAmount == a.sellAmount
      && Some(last.price) == a.price && Some(last.bidder) == a.winner
  }

  ghost predicate AuctionValid(house: AuctionHouse, key: string)
    requires key in house.auctions
  {
    var a := house.auctions[key];
    AuctionShaped(key, a) && BidsRecorded(house.bids, a) && LatestBidMatches(house.bids, a)
  }

  /** Every stored auction is valid. */
  ghost predicate HouseValid(house: AuctionHouse) {
    forall key | key in house.auctions :: AuctionValid(house, key)
  }

  /** A StartAuction keeps the invariant: the new auction has no bids yet. */
  lemma StartKeepsValid(house: AuctionHouse, id: nat, amountToSell: int, initialBid: int, ev: Event)
    requires HouseValid(house)
    ensures var r := Started(house, id, amountToSell, initialBid, ev);
      r.Ok? ==> HouseValid(r.value)
  {
    var r := Started(house, id, amountToSell, initialBid, ev);
    if r.Ok? {
      forall key | key in r.value.auctions ensures AuctionValid(r.value, key) {
        if key != AuctionId(id) {
          assert AuctionValid(house, key);
        }
      }
    }
  }

  /** Storing a bid under an id that none of an auction's bids uses keeps that
      auction's bids recorded. */
  lemma {:induction false} OtherBidKeepsRecorded(bids: map<string, AuctionBid>, a: Auction, newId: string, b: AuctionBid)
    requires BidsRecorded(bids, a) && LatestBidMatches(bids, a)
    requires forall k: nat | k < a.numberOfBids :: BidAuctionId(a.auctionId, k) != newId
    ensures BidsRecorded(bids[newId := b], a) && LatestBidMatches(bids[newId := b], a)
  {
    var after := bids[newId := b];
    forall k: nat | k < a.numberOfBids
      ensures BidAuctionId(a.auctionId, k) in after && after[BidAuctionId(a.auctionId, k)] == bids[BidAuctionId(a.auctionId, k)]
    {
    }
  }

  /** The bid itself extends its auction's records by one, as the latest. */
  lemma {:induction false} OwnBidExtendsRecorded(bids: map<string, AuctionBid>, a: Auction, id: nat, bidAmount: real,
                                                 highBidder: Address, bidExpiry: int, ev: Event)
    requires BidsRecorded(bids, a) && a.auctionId == id && bidAmount != ZERO
    ensures var b := BidOf(a, id, bidAmount, highBidder, ev);
      var updated := a.(numberOfBids := a.numberOfBids + 1, auctionDeadline := bidExpiry,
                        sellAmount := b.sellAmount, buyAmount := b.buyAmount,
                        price := Some(b.price), winner := Some(b.bidder));
      BidsRecorded(bids[b.id := b], updated) && LatestBidMatches(bids[b.id := b], updated)
  {
    var b := BidOf(a, id, bidAmount, highBidder, ev);
    var after := bids[b.id := b];
    forall k: nat | k < a.numberOfBids + 1
      ensures BidAuctionId(id, k) in after
      ensures after[BidAuctionId(id, k)].bidNumber == k && after[BidAuctionId(id, k)].auction == a.id
    {
      BidAuctionIdInjective(id, k, id, a.numberOfBids);
      if k < a.numberOfBids {
        assert BidAuctionId(a.auctionId, k) in bids;
      }
    }
  }

  /** A bid keeps the invariant: it is stored under the next number of its own
      auction, an id that no other auction's bids can use. */
  lemma {:induction false} BidKeepsValid(house: AuctionHouse, id: nat, bidAmount: real, highBidder: Address,
                                         bidExpiry: int, ev: Event)
    requires HouseValid(house)
    ensures var r := BidIncreased(house, id, bidAmount, highBidder, bidExpiry, ev);
      r.Ok? ==> HouseValid(r.value)
  {
    var r := BidIncreased(house, id, bidAmount, highBidder, bidExpiry, ev);
    if r.Ok? {
      var key := AuctionId(id);
      var a := house.auctions[key];
      var b := BidOf(a, id, bidAmount, highBidder, ev);
      assert AuctionValid(house, key);
      AuctionIdInjective(a.auctionId, id);
      OwnBidExtendsRecorded(house.bids, a, id, bidAmount, highBidder, bidExpiry, ev);
      forall other | other in r.value.auctions ensures AuctionValid(r.value, other) {
        if other != key {
          var o := house.auctions[other];
          assert AuctionValid(house, other);
          AuctionIdInjective(o.auctionId, id);
          forall k: nat | k < o.numberOfBids ensures BidAuctionId(o.auctionId, k) != b.id {
            BidAuctionIdInjective(o.auctionId, k, id, a.numberOfBids);
          }
          OtherBidKeepsRecorded(house.bids, o, b.id, b);
        }
      }
    }
  }

  /** A restart keeps the invariant: it touches no bid, amount, price or winner. */
  lemma RestartKeepsValid(house: AuctionHouse, id: nat, auctionDeadline: int)
    requires HouseValid(house)
    ensures Restarted(house, id, auctionDeadline).Ok? ==> HouseValid(Restarted(house, id, auctionDeadline).value)
  {
    if AuctionId(id) in house.auctions {
      var restarted := Restarted(house, id, auctionDeadline).value;
      forall key | key in restarted.auctions ensures AuctionValid(restarted, key) {
        assert AuctionValid(house, key);
      }
    }
  }

  /** A settlement keeps the invariant: it touches no bid, amount, price or winner. */
  lemma SettleKeepsValid(house: AuctionHouse, id: nat)
    requires HouseValid(house)
    ensures Settled(house, id).Ok? ==> HouseValid(Settled(house, id).value)
  {
    if AuctionId(id) in house.auctions {
      var settled := Settled(house, id).value;
      forall key | key in settled.auctions ensures AuctionValid(settled, key) {
        assert AuctionValid(house, key);
      }
    }
  }
}
