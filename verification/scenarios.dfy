/**
 * Concrete runs of the auction template, proved from the methods'
 * contracts alone: a client's view of the state machine.
 */
module Scenarios {
  import opened Host
  import opened AuctionTemplate
  import AuctionIndex

  const SELLER: Address := 10
  const ALICE: Address := 11
  const BOB: Address := 12
  const NFT_RESOURCE: ResourceAddress := 7
  const BADGE_RESOURCE: ResourceAddress := 8
  const THE_NFT: Nft := Nft(NFT_RESOURCE, 1)
  const AUCTION_TEMPLATE: Hash := [1]

  /** Seller, Alice and Bob are all accounts. */
  function Templates(): map<Address, Hash> {
    map[SELLER := ACCOUNT_TEMPLATE_ADDRESS, ALICE := ACCOUNT_TEMPLATE_ADDRESS, BOB := ACCOUNT_TEMPLATE_ADDRESS]
  }

  /** Period 10, no minimum or buy price, badge id 3: Alice opens with a bid of 100. */
  method AliceBids() returns (auction: Auction, accounts: Accounts, badge: Bucket)
    ensures fresh(auction) && fresh(accounts) && auction.Valid()
    ensures auction.vault == multiset{THE_NFT} && auction.highestBid == Some(Bid(ALICE, 100))
    ensures auction.sellerAddress == SELLER && auction.endingEpoch == 10
    ensures auction.minPrice == None && auction.buyPrice == None
    ensures auction.sellerBadgeResource == BADGE_RESOURCE && badge == NonFungibleBucket(BADGE_RESOURCE, [3])
    ensures accounts.templates == Templates()
    ensures accounts.holdings == map[]
  {
    accounts := new Accounts(map[], Templates());
    var created := Auction.New(NonFungibleBucket(NFT_RESOURCE, [1]), SELLER, None, None, 10, 0, accounts,
                               BADGE_RESOURCE, 3);
    assert accounts.IsAccount(SELLER);
    auction, badge := created.value.0, created.value.1;
    assert auction.highestBid == None && auction.vault == multiset{THE_NFT};
    var r := auction.PlaceBid(ALICE, FungibleBucket(XTR2, 100), 0, accounts);
    assert r == None;
  }

  /** Bob then outbids Alice with 200, and her 100 comes back to her. */
  method AliceOutbid() returns (auction: Auction, accounts: Accounts)
    ensures fresh(auction) && fresh(accounts) && auction.Valid()
    ensures auction.vault == multiset{THE_NFT} && auction.highestBid == Some(Bid(BOB, 200))
    ensures auction.sellerAddress == SELLER && auction.endingEpoch == 10
    ensures auction.minPrice == None && auction.buyPrice == None
    ensures accounts.templates == Templates()
    ensures accounts.holdings == map[ALICE := Tokens(100)]
  {
    var badge;
    auction, accounts, badge := AliceBids();
    assert accounts.IsAccount(BOB);
    var r := auction.PlaceBid(BOB, FungibleBucket(XTR2, 200), 1, accounts);
    assert r == None;
    assert accounts.holdings == Credit(map[], ALICE, Tokens(100));
  }

  /**
   * After Alice's 100 and Bob's 200, a bid equal to Bob's is turned down, and
   * after the ending epoch `finish` hands the NFT to Bob and 200 to the
   * seller; Alice got her 100 back.
   */
  method OutbidThenFinish() returns (seller: Holding, alice: Holding, bob: Holding, tie: Option<Error>)
    ensures seller == Tokens(200)
    ensures alice == Tokens(100)
    ensures bob == Nfts(multiset{THE_NFT})
    ensures tie == Some(HigherBidPlaced)
  {
    var auction, accounts := AliceOutbid();
    assert accounts.IsAccount(ALICE);
    tie := auction.PlaceBid(ALICE, FungibleBucket(XTR2, 200), 2, accounts);
    assert tie == Some(HigherBidPlaced);
    var r := auction.Finish(11, accounts);
    assert r == None;
    assert accounts.holdings == Settlement(map[ALICE := Tokens(100)], SELLER, Some(Bid(BOB, 200)), multiset{THE_NFT});
    PlusNothing(Tokens(200));
    PlusNothing(Nfts(multiset{THE_NFT}));
    seller, alice, bob := Get(accounts.holdings, SELLER), Get(accounts.holdings, ALICE), Get(accounts.holdings, BOB);
  }

  /** Buy price 100: a bid of exactly 100 settles inside `bid`, long before the ending epoch. */
  method BuyNowSettles() returns (seller: Holding, alice: Holding, escrow: Holding)
    ensures seller == Tokens(100)
    ensures alice == Nfts(multiset{THE_NFT})
    ensures escrow == Nothing
  {
    var auction, accounts := BoughtOutright();
    PlusNothing(Tokens(100));
    PlusNothing(Nfts(multiset{THE_NFT}));
    seller, alice := Get(accounts.holdings, SELLER), Get(accounts.holdings, ALICE);
    escrow := Holding(Escrowed(auction.highestBid), auction.vault);
  }

  /** With no bid, `finish` fails before the ending epoch and afterwards gives the NFT back to the seller. */
  method NoBidsFinish() returns (early: Option<Error>, seller: Holding)
    ensures early == Some(StillInProgress)
    ensures seller == Nfts(multiset{THE_NFT})
  {
    var accounts := new Accounts(map[], Templates());
    var created := Auction.New(NonFungibleBucket(NFT_RESOURCE, [1]), SELLER, None, None, 10, 0, accounts,
                               BADGE_RESOURCE, 3);
    assert accounts.IsAccount(SELLER);
    var auction := created.value.0;
    early := auction.Finish(9, accounts);
    var r := auction.Finish(10, accounts);
    assert r == None;
    seller := Get(accounts.holdings, SELLER);
  }

  /**
   * Alice bids 100; a bucket of the wrong resource cannot cancel; the
   * seller's badge cancels before the end: Alice gets 100 back and the
   * seller the NFT.
   */
  method CancelRefunds() returns (forged: Option<Error>, seller: Holding, alice: Holding)
    ensures forged == Some(InvalidSellerBadge)
    ensures seller == Nfts(multiset{THE_NFT})
    ensures alice == Tokens(100)
  {
    var auction, accounts, badge := AliceBids();
    forged := auction.Cancel(NonFungibleBucket(NFT_RESOURCE, [1]), 5, accounts);
    assert forged == Some(InvalidSellerBadge) && auction.highestBid == Some(Bid(ALICE, 100));
    var r := auction.Cancel(badge, 5, accounts);
    assert r == None;
    assert accounts.holdings == Credit(Credit(map[], ALICE, Tokens(100)), SELLER, Nfts(multiset{THE_NFT}));
    seller, alice := Get(accounts.holdings, SELLER), Get(accounts.holdings, ALICE);
  }

  /** An auction with buy price 100 that Alice has just bought outright. */
  method BoughtOutright() returns (auction: Auction, accounts: Accounts)
    ensures fresh(auction) && fresh(accounts) && auction.Valid()
    ensures auction.vault == multiset{} && auction.highestBid == Some(Bid(ALICE, 0))
    ensures auction.sellerAddress == SELLER && auction.endingEpoch == 10
    ensures auction.minPrice == None && auction.buyPrice == Some(100)
    ensures accounts.templates == Templates()
    ensures accounts.holdings == Settlement(map[], SELLER, Some(Bid(ALICE, 100)), multiset{THE_NFT})
  {
    accounts := new Accounts(map[], Templates());
    var created := Auction.New(NonFungibleBucket(NFT_RESOURCE, [1]), SELLER, None, Some(100), 10, 0, accounts,
                               BADGE_RESOURCE, 3);
    assert accounts.IsAccount(SELLER);
    auction := created.value.0;
    assert auction.highestBid == None && auction.vault == multiset{THE_NFT};
    var r := auction.PlaceBid(ALICE, FungibleBucket(XTR2, 100), 0, accounts);
    assert r == None;
    assert accounts.holdings == Settlement(map[], SELLER, Some(Bid(ALICE, 100)), multiset{THE_NFT});
  }

  /**
   * As written, a settled auction keeps taking bids until its ending epoch:
   * after Alice's buy-now purchase, Bob's bid of 50 is accepted, and at
   * `finish` his 50 goes to the seller while he receives no NFT.
   */
  method BidAfterBuyNow() returns (late: Option<Error>, seller: Holding, alice: Holding, bob: Holding)
    ensures late == None
    ensures seller == Tokens(150)
    ensures alice == Nfts(multiset{THE_NFT})
    ensures bob == Nothing
  {
    var auction, accounts := BoughtOutright();
    late := auction.PlaceBid(BOB, FungibleBucket(XTR2, 50), 1, accounts);
    assert accounts.IsAccount(BOB);
    assert late == None;
    assert auction.highestBid == Some(Bid(BOB, 50)) && auction.vault == multiset{};
    ghost var beforeFinish := accounts.holdings;
    assert Get(beforeFinish, SELLER) == Tokens(100);
    assert Get(beforeFinish, ALICE) == Nfts(multiset{THE_NFT});
    assert Get(beforeFinish, BOB) == Nothing;
    var r := auction.Finish(10, accounts);
    assert r == None;
    assert accounts.holdings == Settlement(beforeFinish, SELLER, Some(Bid(BOB, 50)), multiset{});
    PlusNothing(Nothing);
    seller, alice, bob := Get(accounts.holdings, SELLER), Get(accounts.holdings, ALICE), Get(accounts.holdings, BOB);
  }

  /**
   * An auction created through the auction index is filed under its ending
   * epoch 10 and is the template's own component: Alice can bid on it.
   */
  method IndexedAuctionTakesBids() returns (filed: nat, bid: Option<Error>)
    ensures filed == 1
    ensures bid == None
  {
    var index := new AuctionIndex.AuctionIndex(AUCTION_TEMPLATE);
    var accounts := new Accounts(map[], Templates());
    assert accounts.IsAccount(SELLER);
    var created := index.CreateAuction(NonFungibleBucket(NFT_RESOURCE, [1]), SELLER, None, None, 10, 0, accounts,
                                       BADGE_RESOURCE, 3);
    filed := |AuctionIndex.Filed(index.auctions, 10)|;
    var auction := created.value.0;
    assert accounts.IsAccount(ALICE);
    bid := auction.PlaceBid(ALICE, FungibleBucket(XTR2, 100), 0, accounts);
  }
}
