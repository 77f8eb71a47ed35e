/**
 * The auction index: every auction component created through it, filed
 * under the epoch at which its bidding ends.
 */
module AuctionIndex {
  import opened Host
  import opened AuctionTemplate

  /** The components filed under `epoch`, or none. */
  function Filed<T>(m: map<U64, seq<T>>, epoch: U64): seq<T> {
    if epoch in m then m[epoch] else []
  }

  /** The index after filing `component` under `epoch`: appended to the epoch's
      list when the epoch is present, a one-element list otherwise. */
  function FileUnder<T>(m: map<U64, seq<T>>, epoch: U64, component: T): (m': map<U64, seq<T>>)
    ensures m'.Keys == m.Keys + {epoch}
    ensures m'[epoch] == Filed(m, epoch) + [component]
    ensures epoch !in m ==> m'[epoch] == [component]
    ensures forall e :: e in m && e != epoch ==> m'[e] == m[e]
  {
    if epoch in m then m[epoch := m[epoch] + [component]] else m[epoch := [component]]
  }

  /** The number of components listed under the epochs in `keys`. */
  ghost function Listed<T>(m: map<U64, seq<T>>, keys: set<U64>): nat
    requires keys <= m.Keys
    decreases keys
  {
    if keys == {} then 0
    else
      var e :| e in keys;
      |m[e]| + Listed(m, keys - {e})
  }

  /** The number of components in the whole index. */
  ghost function Count<T>(m: map<U64, seq<T>>): nat {
    Listed(m, m.Keys)
  }

  lemma {:induction false} ListedRemove<T>(m: map<U64, seq<T>>, keys: set<U64>, e: U64)
    requires keys <= m.Keys && e in keys
    ensures Listed(m, keys) == |m[e]| + Listed(m, keys - {e})
    decreases keys
  {
    var d :| d in keys && Listed(m, keys) == |m[d]| + Listed(m, keys - {d});
    if d != e {
      ListedRemove(m, keys - {d}, e);
      ListedRemove(m, keys - {e}, d);
      assert keys - {d} - {e} == keys - {e} - {d};
    }
  }

  lemma {:induction false} ListedFrame<T>(m: map<U64, seq<T>>, m': map<U64, seq<T>>, keys: set<U64>)
    requires keys <= m.Keys && keys <= m'.Keys
    requires forall k :: k in keys ==> |m[k]| == |m'[k]|
    ensures Listed(m, keys) == Listed(m', keys)
    decreases keys
  {
    if keys != {} {
      var e :| e in keys;
      ListedRemove(m, keys, e);
      ListedRemove(m', keys, e);
      ListedFrame(m, m', keys - {e});
    }
  }

  /** Filing a component grows the index by exactly one entry. */
  lemma CountFileUnder<T>(m: map<U64, seq<T>>, epoch: U64, component: T)
    ensures Count(FileUnder(m, epoch, component)) == Count(m) + 1
  {
    var m' := FileUnder(m, epoch, component);
    var rest := m.Keys - {epoch};
    assert m'.Keys - {epoch} == rest;
    ListedRemove(m', m'.Keys, epoch);
    ListedFrame(m, m', rest);
    if epoch in m {
      ListedRemove(m, m.Keys, epoch);
    } else {
      assert rest == m.Keys;
    }
  }

  class AuctionIndex {
    const auctionTemplate: Hash
    /** The auction components, by ending epoch. */
    var auctions: map<U64, seq<Auction>>

    /** `AuctionIndex::new`. */
    constructor (auctionTemplate: Hash)
      ensures auctions == map[]
      ensures this.auctionTemplate == auctionTemplate
    {
      this.auctionTemplate := auctionTemplate;
      auctions := map[];
    }

    /** `get_auctions`: a copy of the index. */
    method GetAuctions() returns (r: map<U64, seq<Auction>>)
      ensures r == auctions
    {
      r := auctions;
    }

    /**
     * `create_auction`: create an auction through the auction template's `new`
     * and file the new component under its ending epoch. When the template
     * call fails the whole call aborts and the index is left as it was.
     */
    method CreateAuction(nftBucket: Bucket, sellerAddress: Address, minPrice: Option<nat>, buyPrice: Option<nat>,
                         epochPeriod: U64, currentEpoch: U64, accounts: Accounts,
                         badgeResource: ResourceAddress, badgeId: NftId)
      returns (r: Result<(Auction, Bucket), Error>)
      modifies this
      ensures r.Failure? <==> NewCheck(nftBucket, epochPeriod, accounts.IsAccount(sellerAddress)) != None
      ensures r.Failure? ==>
                && Some(r.error) == NewCheck(nftBucket, epochPeriod, accounts.IsAccount(sellerAddress))
                && auctions == old(auctions)
      ensures r.Success? ==>
                var auction := r.value.0;
                && fresh(auction) && auction.Valid()
                && auction.vault == multiset{Nft(nftBucket.resource, nftBucket.ids[0])}
                && auction.highestBid == None
                && auction.endingEpoch == EndingEpoch(currentEpoch, epochPeriod)
                && auction.sellerAddress == sellerAddress
                && auction.minPrice == minPrice && auction.buyPrice == buyPrice
                && auction.sellerBadgeResource == badgeResource
                && r.value.1 == NonFungibleBucket(badgeResource, [badgeId])
                && auctions == FileUnder(old(auctions), EndingEpoch(currentEpoch, epochPeriod), auction)
      ensures Count(auctions) == Count(old(auctions)) + (if r.Success? then 1 else 0)
    {
      r := Auction.New(nftBucket, sellerAddress, minPrice, buyPrice, epochPeriod, currentEpoch, accounts,
                       badgeResource, badgeId);
      if r.Failure? {
        return;
      }
      var auctionComponent := r.value.0;
      var endingEpoch := EndingEpoch(currentEpoch, epochPeriod);
      CountFileUnder(auctions, endingEpoch, auctionComponent);
      if endingEpoch in auctions {
        auctions := auctions[endingEpoch := auctions[endingEpoch] + [auctionComponent]];
      } else {
        auctions := auctions[endingEpoch := [auctionComponent]];
      }
    }
  }
}
