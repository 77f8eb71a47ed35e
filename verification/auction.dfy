/**
 * The single-NFT English auction template.
 *
 * An `Auction` holds one NFT in escrow, at most one highest bid whose
 * payment is also held in escrow, optional minimum and buy-now prices and
 * an ending epoch. A failed check aborts the whole call and the host rolls
 * back every change, so each method below either returns an error and
 * changes nothing, or succeeds and moves value between the escrow vaults
 * and the accounts.
 *
 * There is no "settled" marker: after a settlement or a cancellation the
 * NFT vault is empty and the highest bid, if any, stays in place with an
 * empty payment vault.
 */
module AuctionTemplate {
  import opened Host
  import opened Listing

  datatype Error =
    | InvalidListing(reason: ListingError)
    | InvalidAccount          // "Invalid bidder account" (raised for sellers too)
    | Expired                 // "Auction has expired"
    | InvalidPaymentResource  // "Invalid payment resource, the marketplace only accepts Tari (XTR2) tokens"
    | MinimumPriceNotMet      // "Minimum price not met"
    | HigherBidPlaced         // "There is a higher bid placed"
    | ExceedsBuyPrice         // "Payment exceeds the buying price"
    | StillInProgress         // "Auction is still in progress"
    | InvalidSellerBadge      // "Invalid seller badge"
    | AuctionEnded            // "Auction has ended"

  /** The highest bid: the bidder's account and the balance of its escrow vault. */
  datatype Bid = Bid(bidderAccount: Address, vault: nat)

  /** The balance escrowed by the highest bid, if there is one. */
  function Standing(bid: Option<Bid>): Option<nat> {
    if bid.Some? then Some(bid.value.vault) else None
  }

  /** The tokens held in the highest bid's vault (none when there is no bid). */
  function Escrowed(bid: Option<Bid>): nat {
    if bid.Some? then bid.value.vault else 0
  }

  /** The highest bid after its vault has been emptied by `withdraw_all`. */
  function Drained(bid: Option<Bid>): (r: Option<Bid>)
    ensures r.Some? <==> bid.Some?
    ensures r.Some? ==> r.value.bidderAccount == bid.value.bidderAccount && Escrowed(r) == 0
  {
    if bid.Some? then Some(Bid(bid.value.bidderAccount, 0)) else None
  }

  /** The accounts after the highest bidder, if any, has been paid back its whole escrow. */
  function Refund(holdings: map<Address, Holding>, bid: Option<Bid>): (r: map<Address, Holding>)
    ensures bid.Some? ==>
              Get(r, bid.value.bidderAccount) == Get(holdings, bid.value.bidderAccount).Plus(Tokens(bid.value.vault))
    ensures forall a :: (bid.None? || a != bid.value.bidderAccount) ==> Get(r, a) == Get(holdings, a)
  {
    if bid.Some? then Credit(holdings, bid.value.bidderAccount, Tokens(bid.value.vault)) else holdings
  }

  /** A refund moves the escrowed bid, and nothing else, into the accounts. */
  lemma RefundTotal(holdings: map<Address, Holding>, bid: Option<Bid>)
    ensures Total(Refund(holdings, bid)) == Total(holdings).Plus(Tokens(Escrowed(bid)))
  {
    if bid.Some? {
      TotalCredit(holdings, bid.value.bidderAccount, Tokens(bid.value.vault));
    } else {
      assert Total(holdings).Plus(Nothing).nfts == Total(holdings).nfts;
    }
  }

  /** The accounts after `process_payments`: the NFT goes to the highest bidder and the
      escrowed payment to the seller, or, with no bid, the NFT goes back to the seller. */
  function Settlement(holdings: map<Address, Holding>, seller: Address, bid: Option<Bid>, nfts: multiset<Nft>)
    : (r: map<Address, Holding>)
    ensures bid.Some? && bid.value.bidderAccount != seller ==>
              && Get(r, bid.value.bidderAccount) == Get(holdings, bid.value.bidderAccount).Plus(Nfts(nfts))
              && Get(r, seller) == Get(holdings, seller).Plus(Tokens(bid.value.vault))
    ensures bid.Some? && bid.value.bidderAccount == seller ==>
              Get(r, seller) == Get(holdings, seller).Plus(Holding(bid.value.vault, nfts))
    ensures bid.None? ==> Get(r, seller) == Get(holdings, seller).Plus(Nfts(nfts))
    ensures forall a :: a != seller && (bid.None? || a != bid.value.bidderAccount) ==> Get(r, a) == Get(holdings, a)
  {
    if bid.Some? then
      Credit(Credit(holdings, bid.value.bidderAccount, Nfts(nfts)), seller, Tokens(bid.value.vault))
    else
      Credit(holdings, seller, Nfts(nfts))
  }

  /** Settlement empties both escrows into the accounts: the accounts gain exactly
      the escrowed payment and NFTs. */
  lemma SettlementTotal(holdings: map<Address, Holding>, seller: Address, bid: Option<Bid>, nfts: multiset<Nft>)
    ensures Total(Settlement(holdings, seller, bid, nfts)) == Total(holdings).Plus(Holding(Escrowed(bid), nfts))
  {
    if bid.Some? {
      var afterNft := Credit(holdings, bid.value.bidderAccount, Nfts(nfts));
      TotalCredit(holdings, bid.value.bidderAccount, Nfts(nfts));
      TotalCredit(afterNft, seller, Tokens(bid.value.vault));
      assert Total(holdings).nfts + nfts + multiset{} == Total(holdings).nfts + nfts;
    } else {
      TotalCredit(holdings, seller, Nfts(nfts));
    }
  }

  /** Releasing an escrow of `tokens` and `nfts` into accounts holding `before` in all. */
  lemma EscrowReleased(before: Holding, tokens: nat, nfts: multiset<Nft>)
    ensures before.Plus(Tokens(tokens)).Plus(Nfts(nfts)).Plus(Nothing) == before.Plus(Holding(tokens, nfts))
  {
    assert before.nfts + multiset{} + nfts + multiset{} == before.nfts + nfts;
  }

  /** Swapping an escrowed bid of `refunded` tokens for a new one of `paid` tokens. */
  lemma EscrowReplaced(before: Holding, refunded: nat, paid: nat, nfts: multiset<Nft>)
    ensures before.Plus(Tokens(refunded)).Plus(Holding(paid, nfts)) == before.Plus(Holding(refunded, nfts)).Plus(Tokens(paid))
  {
    assert before.nfts + multiset{} + nfts == before.nfts + nfts + multiset{};
  }

  /** The outcome of the checks `new` makes, in their order. */
  function NewCheck(nftBucket: Bucket, epochPeriod: U64, sellerIsAccount: bool): (r: Option<Error>)
    ensures r == None <==> CheckListing(nftBucket, epochPeriod) == None && sellerIsAccount
    ensures CheckListing(nftBucket, epochPeriod).Some? ==>
              r == Some(InvalidListing(CheckListing(nftBucket, epochPeriod).value))
    ensures r == Some(InvalidAccount) <==> CheckListing(nftBucket, epochPeriod) == None && !sellerIsAccount
  {
    var listing := CheckListing(nftBucket, epochPeriod);
    if listing.Some? then Some(InvalidListing(listing.value))
    else if !sellerIsAccount then Some(InvalidAccount)
    else None
  }

  /** The outcome of the checks `bid` makes, in their order; the first failure wins. */
  function BidCheck(currentEpoch: U64, endingEpoch: U64, paymentResource: ResourceAddress, bidderIsAccount: bool,
                    minPrice: Option<nat>, standing: Option<nat>, buyPrice: Option<nat>, amount: nat): (r: Option<Error>)
    ensures r == None <==>
              && currentEpoch < endingEpoch
              && paymentResource == XTR2
              && bidderIsAccount
              && (minPrice.Some? ==> amount >= minPrice.value)
              && (standing.Some? ==> amount > standing.value)
              && (buyPrice.Some? ==> amount <= buyPrice.value)
    ensures r == Some(Expired) <==> currentEpoch >= endingEpoch
    ensures r == Some(InvalidPaymentResource) <==> currentEpoch < endingEpoch && paymentResource != XTR2
    ensures r == Some(InvalidAccount) <==>
              currentEpoch < endingEpoch && paymentResource == XTR2 && !bidderIsAccount
    ensures r == Some(MinimumPriceNotMet) <==>
              && currentEpoch < endingEpoch && paymentResource == XTR2 && bidderIsAccount
              && minPrice.Some? && amount < minPrice.value
    ensures r == Some(HigherBidPlaced) <==>
              && currentEpoch < endingEpoch && paymentResource == XTR2 && bidderIsAccount
              && (minPrice.Some? ==> amount >= minPrice.value)
              && standing.Some? && amount <= standing.value
    ensures r == Some(ExceedsBuyPrice) <==>
              && currentEpoch < endingEpoch && paymentResource == XTR2 && bidderIsAccount
              && (minPrice.Some? ==> amount >= minPrice.value)
              && (standing.Some? ==> amount > standing.value)
              && buyPrice.Some? && amount > buyPrice.value
  {
    if currentEpoch >= endingEpoch then Some(Expired)
    else if paymentResource != XTR2 then Some(InvalidPaymentResource)
    else if !bidderIsAccount then Some(InvalidAccount)
    else if minPrice.Some? && amount < minPrice.value then Some(MinimumPriceNotMet)
    else if standing.Some? && amount <= standing.value then Some(HigherBidPlaced)
    else if buyPrice.Some? && amount > buyPrice.value then Some(ExceedsBuyPrice)
    else None
  }

  /** The outcome of the checks `cancel` makes, in their order. */
  function CancelCheck(badgeResource: ResourceAddress, sellerBadgeResource: ResourceAddress,
                       currentEpoch: U64, endingEpoch: U64): (r: Option<Error>)
    ensures r == None <==> badgeResource == sellerBadgeResource && currentEpoch < endingEpoch
    ensures r == Some(InvalidSellerBadge) <==> badgeResource != sellerBadgeResource
    ensures r == Some(AuctionEnded) <==> badgeResource == sellerBadgeResource && currentEpoch >= endingEpoch
  {
    if badgeResource != sellerBadgeResource then Some(InvalidSellerBadge)
    else if currentEpoch >= endingEpoch then Some(AuctionEnded)
    else None
  }

  class Auction {
    const sellerBadgeResource: ResourceAddress
    /** The escrowed NFT vault. */
    var vault: multiset<Nft>
    const sellerAddress: Address
    const minPrice: Option<nat>
    const buyPrice: Option<nat>
    var highestBid: Option<Bid>
    const endingEpoch: U64

    /** The NFT vault never holds more than the one token it was created with. */
    ghost predicate Valid()
      reads this
    {
      |vault| <= 1
    }

    /** Everything the auction holds in escrow. */
    ghost function Custody(): Holding
      reads this
    {
      Holding(Escrowed(highestBid), vault)
    }

    constructor Init(nft: Nft, sellerAddress: Address, minPrice: Option<nat>, buyPrice: Option<nat>,
                     endingEpoch: U64, sellerBadgeResource: ResourceAddress)
      ensures Valid()
      ensures vault == multiset{nft} && highestBid == None
      ensures this.sellerAddress == sellerAddress && this.minPrice == minPrice && this.buyPrice == buyPrice
      ensures this.endingEpoch == endingEpoch && this.sellerBadgeResource == sellerBadgeResource
    {
      this.vault := multiset{nft};
      this.sellerAddress := sellerAddress;
      this.minPrice := minPrice;
      this.buyPrice := buyPrice;
      this.highestBid := None;
      this.endingEpoch := endingEpoch;
      this.sellerBadgeResource := sellerBadgeResource;
    }

    /**
     * `Auction::new`: escrow the NFT and mint the seller's cancellation badge.
     * The host supplies the current epoch and the badge's resource address and
     * random id; the new component is returned beside the badge.
     */
    static method New(nftBucket: Bucket, sellerAddress: Address, minPrice: Option<nat>, buyPrice: Option<nat>,
                      epochPeriod: U64, currentEpoch: U64, accounts: Accounts,
                      badgeResource: ResourceAddress, badgeId: NftId)
      returns (r: Result<(Auction, Bucket), Error>)
      ensures r.Failure? <==> NewCheck(nftBucket, epochPeriod, accounts.IsAccount(sellerAddress)) != None
      ensures r.Failure? ==> Some(r.error) == NewCheck(nftBucket, epochPeriod, accounts.IsAccount(sellerAddress))
      ensures r.Success? ==>
                && nftBucket.NonFungibleBucket? && |nftBucket.ids| == 1 && epochPeriod > 0
                && accounts.IsAccount(sellerAddress)
      ensures r.Success? ==>
                var auction := r.value.0;
                && fresh(auction) && auction.Valid()
                && auction.vault == multiset{Nft(nftBucket.resource, nftBucket.ids[0])}
                && auction.Custody() == Nfts(multiset{Nft(nftBucket.resource, nftBucket.ids[0])})
                && auction.highestBid == None
                && auction.endingEpoch == EndingEpoch(currentEpoch, epochPeriod)
                && auction.sellerAddress == sellerAddress
                && auction.minPrice == minPrice && auction.buyPrice == buyPrice
                && auction.sellerBadgeResource == badgeResource
                && r.value.1 == NonFungibleBucket(badgeResource, [badgeId])
    {
      var check := NewCheck(nftBucket, epochPeriod, accounts.IsAccount(sellerAddress));
      if check.Some? {
        return Failure(check.value);
      }
      var badge := NonFungibleBucket(badgeResource, [badgeId]);
      var auction := new Auction.Init(Nft(nftBucket.resource, nftBucket.ids[0]), sellerAddress, minPrice, buyPrice,
                                      EndingEpoch(currentEpoch, epochPeriod), badgeResource);
      r := Success((auction, badge));
    }

    /**
     * `bid`: escrow a payment as the new highest bid, refunding the previous
     * highest bidder in full; a bid equal to the buy price settles at once.
     * The buy-price check, which the template runs after the refund, is made
     * before anything moves: its failure rolls the refund back.
     */
    method PlaceBid(bidderAccountAddress: Address, payment: Bucket, currentEpoch: U64, accounts: Accounts)
      returns (r: Option<Error>)
      requires Valid()
      modifies this, accounts
      ensures Valid()
      ensures r == BidCheck(currentEpoch, endingEpoch, payment.resource, accounts.IsAccount(bidderAccountAddress),
                            minPrice, Standing(old(highestBid)), buyPrice, payment.Amount())
      ensures r.Some? ==> unchanged(this) && unchanged(accounts)
      ensures r.None? && buyPrice != Some(payment.Amount()) ==>
                && highestBid == Some(Bid(bidderAccountAddress, payment.Amount()))
                && vault == old(vault)
                && accounts.holdings == Refund(old(accounts.holdings), old(highestBid))
      ensures r.None? && buyPrice == Some(payment.Amount()) ==>
                && highestBid == Some(Bid(bidderAccountAddress, 0))
                && vault == multiset{}
                && accounts.holdings == Settlement(Refund(old(accounts.holdings), old(highestBid)), sellerAddress,
                                                   Some(Bid(bidderAccountAddress, payment.Amount())), old(vault))
      ensures old(highestBid).Some? ==> highestBid.Some?
      ensures Total(accounts.holdings).Plus(Custody()) ==
              Total(old(accounts.holdings)).Plus(old(Custody())).Plus(if r.None? then Tokens(payment.Amount()) else Nothing)
    {
      r := BidCheck(currentEpoch, endingEpoch, payment.resource, accounts.IsAccount(bidderAccountAddress),
                    minPrice, Standing(highestBid), buyPrice, payment.Amount());
      if r.Some? {
        return;
      }
      var paymentAmount := payment.Amount();
      ghost var before := Total(accounts.holdings).Plus(Custody());
      if highestBid.Some? {
        // refund the previous highest bidder, then take its place
        var previous := highestBid.value;
        accounts.Deposit(previous.bidderAccount, Tokens(previous.vault));
        highestBid := Some(Bid(bidderAccountAddress, paymentAmount));
      } else {
        highestBid := Some(Bid(bidderAccountAddress, paymentAmount));
      }
      assert accounts.holdings == Refund(old(accounts.holdings), old(highestBid));
      RefundTotal(old(accounts.holdings), old(highestBid));
      EscrowReplaced(Total(old(accounts.holdings)), Escrowed(old(highestBid)), paymentAmount, vault);
      assert Total(accounts.holdings).Plus(Custody()) == before.Plus(Tokens(paymentAmount));
      if buyPrice.Some? && paymentAmount == buyPrice.value {
        ProcessPayments(accounts);
      }
    }

    /** `finish`: once the ending epoch is reached, settle the auction. */
    method Finish(currentEpoch: U64, accounts: Accounts) returns (r: Option<Error>)
      requires Valid()
      modifies this, accounts
      ensures Valid()
      ensures r == (if currentEpoch < endingEpoch then Some(StillInProgress) else None)
      ensures r.Some? ==> unchanged(this) && unchanged(accounts)
      ensures r.None? ==>
                && vault == multiset{}
                && highestBid == Drained(old(highestBid))
                && accounts.holdings == Settlement(old(accounts.holdings), sellerAddress, old(highestBid), old(vault))
      ensures Total(accounts.holdings).Plus(Custody()) == Total(old(accounts.holdings)).Plus(old(Custody()))
    {
      if currentEpoch < endingEpoch {
        return Some(StillInProgress);
      }
      ProcessPayments(accounts);
      r := None;
    }

    /**
     * `cancel`: the holder of the seller badge calls the auction off before it
     * ends. The highest bidder is paid back, the badge is burned (the bucket
     * is consumed and lands nowhere) and the NFT goes back to the seller.
     */
    method Cancel(sellerBadgeBucket: Bucket, currentEpoch: U64, accounts: Accounts) returns (r: Option<Error>)
      requires Valid()
      modifies this, accounts
      ensures Valid()
      ensures r == CancelCheck(sellerBadgeBucket.resource, sellerBadgeResource, currentEpoch, endingEpoch)
      ensures r.Some? ==> unchanged(this) && unchanged(accounts)
      ensures r.None? ==>
                && vault == multiset{}
                && highestBid == Drained(old(highestBid))
                && accounts.holdings == Credit(Refund(old(accounts.holdings), old(highestBid)), sellerAddress,
                                               Nfts(old(vault)))
      ensures Total(accounts.holdings).Plus(Custody()) == Total(old(accounts.holdings)).Plus(old(Custody()))
    {
      r := CancelCheck(sellerBadgeBucket.resource, sellerBadgeResource, currentEpoch, endingEpoch);
      if r.Some? {
        return;
      }
      if highestBid.Some? {
        var bidderAccount := highestBid.value.bidderAccount;
        var refund := highestBid.value.vault;
        highestBid := Some(Bid(bidderAccount, 0));
        accounts.Deposit(bidderAccount, Tokens(refund));
      }
      assert accounts.holdings == Refund(old(accounts.holdings), old(highestBid));
      var nfts := vault;
      vault := multiset{};
      accounts.Deposit(sellerAddress, Nfts(nfts));
      RefundTotal(old(accounts.holdings), old(highestBid));
      EscrowReleased(Total(old(accounts.holdings)), Escrowed(old(highestBid)), nfts);
    }

    /** `process_payments`: empty both vaults into the winner's and the seller's accounts. */
    method ProcessPayments(accounts: Accounts)
      requires Valid()
      modifies this, accounts
      ensures Valid()
      ensures vault == multiset{}
      ensures highestBid == Drained(old(highestBid))
      ensures accounts.holdings == Settlement(old(accounts.holdings), sellerAddress, old(highestBid), old(vault))
      ensures Total(accounts.holdings).Plus(Custody()) == Total(old(accounts.holdings)).Plus(old(Custody()))
    {
      var nfts := vault;
      vault := multiset{};
      if highestBid.Some? {
        var bidderAccount := highestBid.value.bidderAccount;
        accounts.Deposit(bidderAccount, Nfts(nfts));
        var payment := highestBid.value.vault;
        highestBid := Some(Bid(bidderAccount, 0));
        accounts.Deposit(sellerAddress, Tokens(payment));
      } else {
        accounts.Deposit(sellerAddress, Nfts(nfts));
      }
      assert accounts.holdings == Settlement(old(accounts.holdings), sellerAddress, old(highestBid), nfts);
      SettlementTotal(old(accounts.holdings), sellerAddress, old(highestBid), nfts);
      assert Custody() == Nothing;
      PlusNothing(Total(accounts.holdings));
    }
  }
}
