/**
 * The legacy keyed NFT marketplace: one component that keeps every auction
 * in a map keyed by the address of the NFT under auction, and mints a
 * cancellation badge that records that address.
 */
module Marketplace {
  import opened Host
  import opened Listing

  /** The address of one NFT: its resource and its id. */
  type NonFungibleAddress = Nft

  datatype MarketBid = MarketBid(address: Address, bid: nat)

  /** One auction entry of the marketplace's map. */
  datatype MarketAuction = MarketAuction(
    vault: multiset<Nft>,
    sellerAddress: Address,
    minPrice: Option<nat>,
    buyPrice: Option<nat>,
    highestBid: Option<MarketBid>,
    endingEpoch: U64)

  /** A minted badge token: its resource, its id and its immutable metadata. */
  datatype Badge = Badge(resource: ResourceAddress, id: NftId, immutableData: map<string, NonFungibleAddress>)

  const NFT_ADDRESS_KEY: string := "nft_address"

  class NftMarketplace {
    var auctions: map<NonFungibleAddress, MarketAuction>
    /** The badge resource, created once with the component. */
    const sellerBadgeResource: ResourceAddress

    /** `NftMarketplace::new`; the host supplies the new badge resource's address. */
    constructor (sellerBadgeResource: ResourceAddress)
      ensures auctions == map[]
      ensures this.sellerBadgeResource == sellerBadgeResource
    {
      auctions := map[];
      this.sellerBadgeResource := sellerBadgeResource;
    }

    /**
     * `start_auction`: validate the listing, file the auction under the
     * NFT's address and mint a badge pointing at that address. The host
     * supplies the current epoch and the badge's random id.
     */
    method StartAuction(nftBucket: Bucket, sellerAddress: Address, minPrice: Option<nat>, buyPrice: Option<nat>,
                        epochPeriod: U64, currentEpoch: U64, badgeId: NftId)
      returns (r: Result<Badge, ListingError>)
      modifies this
      ensures r.Failure? <==> CheckListing(nftBucket, epochPeriod).Some?
      ensures r.Failure? ==> r.error == CheckListing(nftBucket, epochPeriod).value && auctions == old(auctions)
      ensures r.Success? ==> nftBucket.NonFungibleBucket? && |nftBucket.ids| == 1 && epochPeriod > 0
      ensures r.Success? ==>
                var key := Nft(nftBucket.resource, nftBucket.ids[0]);
                && key in auctions
                && auctions[key] == MarketAuction(multiset{key}, sellerAddress, minPrice, buyPrice, None,
                                                  EndingEpoch(currentEpoch, epochPeriod))
                && auctions.Keys == old(auctions).Keys + {key}
                && (forall k :: k in old(auctions) && k != key ==> auctions[k] == old(auctions)[k])
                && r.value == Badge(sellerBadgeResource, badgeId, map[NFT_ADDRESS_KEY := key])
    {
      var check := CheckListing(nftBucket, epochPeriod);
      if check.Some? {
        return Failure(check.value);
      }
      var nftAddress := Nft(nftBucket.resource, nftBucket.ids[0]);
      var auction := MarketAuction(multiset{nftAddress}, sellerAddress, minPrice, buyPrice, None,
                                   EndingEpoch(currentEpoch, epochPeriod));
      auctions := auctions[nftAddress := auction];
      var immutableData := map[NFT_ADDRESS_KEY := nftAddress];
      r := Success(Badge(sellerBadgeResource, badgeId, immutableData));
    }
  }
}
