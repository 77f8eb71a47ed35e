# NFT auctions and indexes on the Tari template host, in Dafny

This project models the auction and index templates of the Tari
`test-templates` repository and proves properties of them.

- **The single-NFT English auction template** (`AuctionTemplate`) is the centre
  of the model. An `Auction` component escrows one NFT in its vault. It keeps
  at most one highest bid, whose payment is also escrowed. It has optional
  minimum and buy-now prices and an ending epoch. Its entry points are `new`,
  `bid`, `finish` and `cancel`. Their private helpers are
  `assert_component_is_account` and `process_payments`.
- **The legacy keyed marketplace** (`Marketplace`) is one component that keeps
  every auction in a map keyed by the NFT's address. `start_auction` mints a
  seller badge whose immutable data records that address.
- **The Tariswap pool index** (`PoolIndex`) keeps at most one pool per unordered
  pair of resources, under the pair sorted into a canonical key.
- **The auction index** (`AuctionIndex`) creates auctions through the auction
  template and files each new component under its ending epoch.

How the host is represented (`Host`):

- Component, resource and NFT addresses are natural numbers.
- A bucket is a value: a fungible amount of one resource, or a sequence of NFT
  ids.
- An account's holding is an XTR2 token balance plus a multiset of NFTs.
- The ledger's accounts are an `Accounts` object. Its `holdings` map changes
  only through the account `deposit` method, modelled as `Accounts.Deposit`.
- `Accounts.IsAccount` models `assert_component_is_account`. It holds when the
  component's template is the all-zero account template hash.
- The ghost function `Total` sums every holding. It is used to state that value
  is only moved, never created or destroyed.

Each component whose fields the source updates in place is a class:
`Auction`, `NftMarketplace`, `TariswapIndex` and `AuctionIndex`. Each method
carries the state change in its `ensures`. Whatever the host supplies is a
parameter:

- the current epoch;
- random NFT ids;
- the addresses of newly built resources;
- the pool template's constructor.

A failed `assert!` aborts the host transaction and rolls back every change.
Every method therefore either returns an error and leaves all state unchanged,
or succeeds. `bid` runs its buy-price check after it has already refunded the
previous bidder. The model evaluates every check first, which gives the same
outcome because of the rollback.

The auction has no "settled" marker, and the model follows the source in this.
After a settlement or a cancellation, the NFT vault is empty and the highest
bid stays in place with an empty payment vault. `PlaceBid`'s contract accepts a
later bid that outbids that empty vault, up to the ending epoch. The scenario
`Scenarios.BidAfterBuyNow` follows this through: a bid of 50 placed after a
buy-now purchase goes to the seller at `finish`, and the late bidder receives
nothing.

The `u64` sum `current_epoch + epoch_period` is modelled as it behaves in a
release build for `wasm32-unknown-unknown`, where the integer overflow checks
are off: it wraps modulo 2^64 (`Host.EndingEpoch`).

Here the model departs from the code of `Auction::new`. That function
returns only the seller badge bucket (lib.rs:83, lib.rs:121 of the auction
template). The auction index's `create_auction` decodes the same call's result
as a (component, badge) pair (index lib.rs:60). `AuctionTemplate.Auction.New`
returns the new component as well as the badge, so
`AuctionIndex.AuctionIndex.CreateAuction` gets the pair it expects. The source
as written would instead fail to decode a lone bucket as a pair, and
`create_auction` would abort every time. This was read from the code, not
executed.

## Model

| member | source | states |
|---|---|---|
| Host.EndingEpoch | src/nft-marketplace/templates/auction/src/lib.rs:115 | the ending epoch is current epoch + period when that fits in u64; otherwise it wraps and lands below the current epoch; a positive period without overflow ends strictly after the current epoch |
| Host.Credit | src/nft-marketplace/templates/auction/src/lib.rs:154-157 | a deposit adds the bucket to exactly one account and leaves every other account's holding unchanged |
| Host.TotalCredit | src/nft-marketplace/templates/auction/src/lib.rs:224-226 | a deposit raises the total held by all accounts by exactly the deposited value |
| Host.Accounts.Deposit | src/nft-marketplace/templates/auction/src/lib.rs:245-249 | the account `deposit` call: the new holdings are the old ones credited with the bucket, and the ledger total grows by the bucket |
| Host.Accounts.IsAccount | src/nft-marketplace/templates/auction/src/lib.rs:229-235 | an address is an account iff a component exists there and its template is the 32-byte all-zero account template hash |
| Listing.CheckListing | src/nft_marketplace/src/lib.rs:97-107 | a listing passes iff the bucket is non-fungible, holds exactly one token and the period is positive; otherwise the first failing check names the error, in the source's order |
| AuctionTemplate.Refund | src/nft-marketplace/templates/auction/src/lib.rs:148-161 | the previous highest bidder gains exactly its escrowed balance; every other account is unchanged |
| AuctionTemplate.RefundTotal | src/nft-marketplace/templates/auction/src/lib.rs:211-217 | a refund moves exactly the escrowed bid into the accounts |
| AuctionTemplate.Settlement | src/nft-marketplace/templates/auction/src/lib.rs:238-256 | with a bid, the bidder gains the NFT and the seller gains the escrowed payment, and a seller who bid on their own auction gains both; with no bid, the seller gets the NFT back; nobody else changes |
| AuctionTemplate.SettlementTotal | src/nft-marketplace/templates/auction/src/lib.rs:239-253 | settlement moves exactly the escrowed payment and NFT into the accounts |
| AuctionTemplate.NewCheck | src/nft-marketplace/templates/auction/src/lib.rs:84-97 | `new` succeeds iff the listing checks pass and the seller is an account; a listing failure is reported before the account check |
| AuctionTemplate.BidCheck | src/nft-marketplace/templates/auction/src/lib.rs:126-176 | a bid is accepted iff it is before the end, paid in XTR2, by an account, at least the minimum, above the standing bid and at most the buy price; each error occurs iff its guard is the first one to fail, in that order |
| AuctionTemplate.CancelCheck | src/nft-marketplace/templates/auction/src/lib.rs:198-207 | cancel proceeds iff the badge's resource is the seller badge resource and the auction has not ended; a wrong badge is "Invalid seller badge", checked first; the right badge at or after the end is "Auction has ended" |
| AuctionTemplate.Auction.Init | src/nft-marketplace/templates/auction/src/lib.rs:109-117 | a new component holds the one NFT, has no bid and keeps the given prices, seller, ending epoch and badge resource |
| AuctionTemplate.Auction.New | src/nft-marketplace/templates/auction/src/lib.rs:77-122 | fails exactly when NewCheck reports an error; on success the vault holds the single NFT, there is no bid, the ending epoch is current + period, and the returned badge is one token of the new badge resource |
| AuctionTemplate.Auction.PlaceBid | src/nft-marketplace/templates/auction/src/lib.rs:124-181 | the outcome is BidCheck; a rejected bid changes nothing; an accepted bid refunds the previous bidder in full and escrows exactly the payment under the new bidder; a bid equal to the buy price settles at once and empties both vaults; the highest bid never returns to none; accounts plus escrow gain exactly the payment |
| AuctionTemplate.Auction.Finish | src/nft-marketplace/templates/auction/src/lib.rs:185-192 | fails with "still in progress" iff the current epoch is before the end and then changes nothing; otherwise the accounts become the Settlement, both vaults are emptied and accounts plus escrow are conserved |
| AuctionTemplate.Auction.Cancel | src/nft-marketplace/templates/auction/src/lib.rs:195-227 | the outcome is CancelCheck; an error changes nothing; on success the bidder is refunded in full, the NFT goes back to the seller, both vaults are empty and accounts plus escrow are conserved |
| AuctionTemplate.Auction.ProcessPayments | src/nft-marketplace/templates/auction/src/lib.rs:238-256 | the accounts become the Settlement of the old escrow, both vaults end empty, the bid keeps its bidder, and accounts plus escrow are conserved |
| Marketplace.NftMarketplace.constructor | src/nft_marketplace/src/lib.rs:76-85 | a new marketplace has no auctions |
| Marketplace.NftMarketplace.StartAuction | src/nft_marketplace/src/lib.rs:89-132 | fails iff CheckListing fails and then leaves the map unchanged; on success the NFT's address maps to an auction holding the NFT, with no bid, the given prices and the ending epoch current + period, every other entry is unchanged, and the badge's immutable data maps "nft_address" to that address |
| PoolIndex.BuildPoolKey | src/tariswap/templates/index/src/lib.rs:83-90 | the key is the two resources in ascending order: a permutation of the pair whose first element is the smaller |
| PoolIndex.BuildPoolKeySymmetric | src/tariswap/tests/test.rs:396-400 | the key does not depend on the order of the two resources |
| PoolIndex.BuildPoolKeyCanonical | src/tariswap/templates/index/src/lib.rs:87-89 | two pairs share a key iff they hold the same two resources |
| PoolIndex.DuplicateSymmetric | src/tariswap/templates/index/src/lib.rs:60-66 | a pair is a duplicate iff the same pair in the other order is |
| PoolIndex.SharedResourceNotDuplicate | src/tariswap/tests/test.rs:402-405 | with only the pool for {a, b} indexed, a pair sharing just one resource with it is not a duplicate |
| PoolIndex.TariswapIndex.constructor | src/tariswap/templates/index/src/lib.rs:40-48 | a new index has no pools and keeps the pool template and market fee |
| PoolIndex.TariswapIndex.GetPools | src/tariswap/templates/index/src/lib.rs:51-53 | returns the whole pool map |
| PoolIndex.TariswapIndex.CreatePool | src/tariswap/templates/index/src/lib.rs:55-80 | fails iff the sorted key is already present, in either argument order, and then changes nothing; on success the pool is created from the sorted pair and the index's market fee, and the map gains exactly that key mapped to the new pool |
| AuctionIndex.FileUnder | src/nft-marketplace/templates/index/src/lib.rs:70-75 | filing appends the component to the end of its epoch's list, or starts a one-element list; every other epoch is unchanged |
| AuctionIndex.CountFileUnder | src/nft-marketplace/templates/index/src/lib.rs:71-75 | filing grows the number of listed components by exactly one |
| AuctionIndex.AuctionIndex.constructor | src/nft-marketplace/templates/index/src/lib.rs:36-41 | a new index is empty and keeps the auction template |
| AuctionIndex.AuctionIndex.GetAuctions | src/nft-marketplace/templates/index/src/lib.rs:45-47 | returns the whole index |
| AuctionIndex.AuctionIndex.CreateAuction | src/nft-marketplace/templates/index/src/lib.rs:51-78 | fails exactly when the template's `new` fails, with the same error, and then leaves the index unchanged; on success it returns the template's component and badge (the component holds the NFT, has no bid and keeps the seller, prices, ending epoch current + period and badge resource), files the component under that ending epoch, and the listed count grows by one |
| Scenarios.AliceBids | src/nft-marketplace/templates/auction/src/lib.rs:162-168 | a first bid of 100 becomes the highest bid and leaves the NFT in escrow and the accounts untouched |
| Scenarios.AliceOutbid | src/nft-marketplace/templates/auction/src/lib.rs:148-161 | after Bob outbids Alice with 200, Bob holds the bid and Alice's 100 is back in her account |
| Scenarios.OutbidThenFinish | src/nft-marketplace/templates/auction/src/lib.rs:185-192 | a bid equal to the standing 200 is refused with "higher bid placed"; after the end, `finish` gives Bob the NFT and the seller 200, and Alice keeps her 100 |
| Scenarios.BoughtOutright | src/nft-marketplace/templates/auction/src/lib.rs:171-179 | a bid equal to the buy price empties both vaults: the NFT goes to the bidder and the payment to the seller |
| Scenarios.BuyNowSettles | src/nft-marketplace/templates/auction/src/lib.rs:177-178 | after a buy-now bid, before the ending epoch, the seller holds 100, the buyer holds the NFT and nothing is left in escrow |
| Scenarios.NoBidsFinish | src/nft-marketplace/templates/auction/src/lib.rs:250-253 | with no bid, `finish` fails before the end and afterwards returns the NFT to the seller |
| Scenarios.CancelRefunds | src/nft-marketplace/templates/auction/src/lib.rs:195-227 | a bucket of another resource cannot cancel; the seller's badge cancels, refunding Alice's 100 and returning the NFT to the seller |
| Scenarios.BidAfterBuyNow | src/nft-marketplace/templates/auction/src/lib.rs:215-217 | with no settled marker, a bid of 50 after a buy-now purchase is accepted; at `finish` the seller gains that 50 and the late bidder receives nothing |
| Scenarios.IndexedAuctionTakesBids | src/nft-marketplace/templates/index/src/lib.rs:59-77 | an auction created through the index is filed under its ending epoch and accepts a first bid |

## Left out

- Host internals are not modelled: `ComponentManager::get`, `TemplateManager::call`, `ResourceBuilder`, `ResourceManager::mint_non_fungible`, access rules, and how vaults and buckets are implemented.
- Host inputs become parameters: the current epoch from `Consensus::current_epoch()`, the random badge id from `NonFungibleId::random()`, and the address of each newly built badge resource.
- Cross-template calls become parameters or direct calls. The pool template's `new` is the function parameter `poolNew`; the pool template's own source is not part of this model, so a failure inside it is not modelled. The auction index calls `Auction.New` directly instead of dispatching through its stored `auction_template` address.
- AuctionTemplate.Auction.New: returns the new component beside the badge, unlike the source's `new`, which returns only the badge bucket. The index's `create_auction` reads a (component, badge) pair from that call, so the model gives it that pair. The abort this mismatch would cause in the source is not modelled.
- Host.Accounts.IsAccount: an address with no component behind it is reported as "Invalid bidder account". In the source, `ComponentManager::get` itself would fail first, with its own message.
- Bucket linearity is not modelled. Buckets are values, so the model does not prevent a spent badge value from being presented again after `cancel` burned it. On the ledger, the burn makes that impossible.
- Amounts are unbounded non-negative integers. The template library's signed 64-bit `Amount` and its overflow behaviour are not modelled.
- XTR2 payments are always fungible buckets. The model takes `payment.amount()` as the bucket's fungible amount.
- The badge's metadata value is `nft_address.to_string()` in the source. The model keeps the address value itself; the string formatting is a library detail.
- The `u64` overflow of `current_epoch + epoch_period` wraps, as in the release WASM build. The crate manifests are not part of this model, so the absence of `overflow-checks` there is assumed, not checked.
- The legacy marketplace's `Auction` entries are stored values (`MarketAuction`). Its source has no `bid`, `finish` or `cancel`, so no operation on those entries is modelled.
- The test suites are used only as evidence for the pool-index lemmas. The build script (`build.rs`), which compiles the templates to WASM, is not part of this model, and neither is the swap and liquidity pricing of the Tariswap pool template.
