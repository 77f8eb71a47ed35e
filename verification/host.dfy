/**
 * The ledger host as the templates see it: addresses, buckets of resources,
 * the epoch counter's width, and the accounts that receive deposits.
 *
 * Only custody is modelled. An account is a holding of XTR2 payment tokens
 * and a multiset of non-fungible tokens; a deposit adds a bucket's contents
 * to the holding of one address. `Total` sums every holding, so that the
 * templates can state that value is moved and never created or destroyed.
 */
module Host {

  type Address = nat
  type ResourceAddress = nat
  type NftId = nat

  /** A 32-byte template hash. */
  type Hash = seq<bv8>

  const U64_MODULUS: int := 0x1_0000_0000_0000_0000
  type U64 = x: int | 0 <= x < U64_MODULUS

  const U16_MODULUS: int := 0x1_0000
  type U16 = x: int | 0 <= x < U16_MODULUS

  /** The built-in account template: `Hash::from_array([0u8; 32])`. */
  const ACCOUNT_TEMPLATE_ADDRESS: Hash := [0, 0, 0, 0, 0, 0, 0, 0, 0, 0, 0, 0, 0, 0, 0, 0, 0, 0, 0, 0, 0, 0, 0, 0, 0, 0, 0, 0, 0, 0, 0, 0]

  /** The resource address of the XTR2 payment token (a constant of the template library). */
  const XTR2: ResourceAddress := 1

  datatype Option<+T> = None | Some(value: T)

  datatype Result<+T, +E> = Success(value: T) | Failure(error: E)

  datatype ResourceType = Fungible | NonFungible

  /** A non-fungible token: its resource and its id within that resource. */
  datatype Nft = Nft(resource: ResourceAddress, id: NftId)

  /** A bucket of one resource, as handed to a template method. */
  datatype Bucket =
    | FungibleBucket(resource: ResourceAddress, amount: nat)
    | NonFungibleBucket(resource: ResourceAddress, ids: seq<NftId>)
  {
    function ResourceType(): ResourceType {
      if FungibleBucket? then Fungible else NonFungible
    }

    /** `Bucket::amount()`: the fungible amount, or the number of tokens. */
    function Amount(): nat {
      if FungibleBucket? then amount else |ids|
    }
  }

  /** What an account (or an escrow vault) holds: XTR2 tokens and NFTs. */
  datatype Holding = Holding(tokens: nat, nfts: multiset<Nft>) {
    function Plus(other: Holding): Holding {
      Holding(tokens + other.tokens, nfts + other.nfts)
    }
  }

  const Nothing: Holding := Holding(0, multiset{})

  function Tokens(amount: nat): Holding { Holding(amount, multiset{}) }

  function Nfts(nfts: multiset<Nft>): Holding { Holding(0, nfts) }

  /** The ending epoch `current_epoch + epoch_period`, computed in u64 arithmetic
      of a release build, where an overflowing addition wraps around. */
  function EndingEpoch(currentEpoch: U64, epochPeriod: U64): (e: U64)
    ensures currentEpoch + epochPeriod < U64_MODULUS ==> e == currentEpoch + epochPeriod
    ensures currentEpoch + epochPeriod >= U64_MODULUS ==>
              e == currentEpoch + epochPeriod - U64_MODULUS && e < currentEpoch
    ensures epochPeriod > 0 && currentEpoch + epochPeriod < U64_MODULUS ==> currentEpoch < e
  {
    (currentEpoch + epochPeriod) % U64_MODULUS
  }

  function Get(m: map<Address, Holding>, a: Address): Holding {
    if a in m then m[a] else Nothing
  }

  /** The holdings after depositing `h` into the account at `a`. */
  function Credit(m: map<Address, Holding>, a: Address, h: Holding): (m': map<Address, Holding>)
    ensures m'.Keys == m.Keys + {a}
    ensures Get(m', a) == Get(m, a).Plus(h)
    ensures forall b :: b != a ==> Get(m', b) == Get(m, b)
  {
    m[a := Get(m, a).Plus(h)]
  }

  /** The sum of the holdings of the addresses in `keys`. */
  ghost function Sum(m: map<Address, Holding>, keys: set<Address>): Holding
    requires keys <= m.Keys
    decreases keys
  {
    if keys == {} then Nothing
    else
      var a :| a in keys;
      m[a].Plus(Sum(m, keys - {a}))
  }

  /** Everything held by every account. */
  ghost function Total(m: map<Address, Holding>): Holding {
    Sum(m, m.Keys)
  }

  lemma PlusNothing(h: Holding)
    ensures h.Plus(Nothing) == h && Nothing.Plus(h) == h
  {
    assert h.nfts + multiset{} == h.nfts;
    assert multiset{} + h.nfts == h.nfts;
  }

  lemma PlusSwap(x: Holding, y: Holding, z: Holding)
    ensures x.Plus(y.Plus(z)) == y.Plus(x.Plus(z))
  {
    assert x.nfts + (y.nfts + z.nfts) == y.nfts + (x.nfts + z.nfts);
  }

  lemma PlusShift(x: Holding, y: Holding, z: Holding)
    ensures x.Plus(y).Plus(z) == x.Plus(z).Plus(y)
  {
    assert x.nfts + y.nfts + z.nfts == x.nfts + z.nfts + y.nfts;
  }

  /** `Sum` does not depend on the order in which it picks addresses. */
  lemma {:induction false} SumRemove(m: map<Address, Holding>, keys: set<Address>, a: Address)
    requires keys <= m.Keys && a in keys
    ensures Sum(m, keys) == m[a].Plus(Sum(m, keys - {a}))
    decreases keys
  {
    var b :| b in keys && Sum(m, keys) == m[b].Plus(Sum(m, keys - {b}));
    if b != a {
      SumRemove(m, keys - {b}, a);
      SumRemove(m, keys - {a}, b);
      assert keys - {b} - {a} == keys - {a} - {b};
      PlusSwap(m[b], m[a], Sum(m, keys - {a} - {b}));
    }
  }

  /** `Sum` over `keys` only reads the holdings of `keys`. */
  lemma {:induction false} SumFrame(m: map<Address, Holding>, m': map<Address, Holding>, keys: set<Address>)
    requires keys <= m.Keys && keys <= m'.Keys
    requires forall k :: k in keys ==> m[k] == m'[k]
    ensures Sum(m, keys) == Sum(m', keys)
    decreases keys
  {
    if keys != {} {
      var a :| a in keys;
      SumRemove(m, keys, a);
      SumRemove(m', keys, a);
      SumFrame(m, m', keys - {a});
    }
  }

  /** A deposit adds exactly the deposited value to the total held by all accounts. */
  lemma TotalCredit(m: map<Address, Holding>, a: Address, h: Holding)
    ensures Total(Credit(m, a, h)) == Total(m).Plus(h)
  {
    var m' := m[a := Get(m, a).Plus(h)];
    assert m' == Credit(m, a, h);
    var rest := m.Keys - {a};
    assert m'.Keys - {a} == rest;
    assert forall k :: k in rest ==> m[k] == m'[k];
    SumRemove(m', m'.Keys, a);
    SumFrame(m, m', rest);
    if a in m {
      SumRemove(m, m.Keys, a);
      PlusShift(m[a], h, Sum(m, rest));
    } else {
      assert rest == m.Keys;
      PlusSwap(h, Total(m), Nothing);
    }
  }

  /**
   * The accounts of the ledger. `templates` records, for every component,
   * the template it was instantiated from; `holdings` is what each account
   * owns and is changed only by deposits.
   */
  class Accounts {
    var holdings: map<Address, Holding>
    const templates: map<Address, Hash>

    constructor (holdings: map<Address, Holding>, templates: map<Address, Hash>)
      ensures this.holdings == holdings && this.templates == templates
    {
      this.holdings := holdings;
      this.templates := templates;
    }

    /** The component at `a` exists and was instantiated from the account template,
        whose address is the 32-byte all-zero hash. */
    predicate IsAccount(a: Address)
      ensures IsAccount(a) <==>
                a in templates && |templates[a]| == 32 && forall i :: 0 <= i < |templates[a]| ==> templates[a][i] == 0
    {
      a in templates && templates[a] == ACCOUNT_TEMPLATE_ADDRESS
    }

    /** The account's `deposit` method: the whole bucket lands in `a`'s holding. */
    method Deposit(a: Address, h: Holding)
      modifies this
      ensures holdings == Credit(old(holdings), a, h)
      ensures Total(holdings) == Total(old(holdings)).Plus(h)
    {
      TotalCredit(holdings, a, h);
      holdings := Credit(holdings, a, h);
    }
  }
}
