/**
 * The checks both auction templates make on the item a seller puts up:
 * it must be a non-fungible resource, exactly one token of it, and the
 * bidding period must be at least one epoch.
 */
module Listing {
  import opened Host

  datatype ListingError =
    | NotAnNft       // "The resource is not a NFT"
    | NotSingleNft   // "Can only start an auction of a single NFT"
    | InvalidPeriod  // "Invalid auction period"

  /** The first listing check that fails, in the order the templates run them. */
  function CheckListing(nftBucket: Bucket, epochPeriod: U64): (r: Option<ListingError>)
    ensures r == None <==> nftBucket.NonFungibleBucket? && |nftBucket.ids| == 1 && epochPeriod > 0
    ensures r == Some(NotAnNft) <==> nftBucket.ResourceType() != NonFungible
    ensures r == Some(NotSingleNft) <==> nftBucket.ResourceType() == NonFungible && nftBucket.Amount() != 1
    ensures r == Some(InvalidPeriod) <==> nftBucket.NonFungibleBucket? && |nftBucket.ids| == 1 && epochPeriod == 0
  {
    if nftBucket.ResourceType() != NonFungible then Some(NotAnNft)
    else if nftBucket.Amount() != 1 then Some(NotSingleNft)
    else if epochPeriod == 0 then Some(InvalidPeriod)
    else None
  }
}
