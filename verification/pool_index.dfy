/**
 * The Tariswap pool index: at most one pool per unordered pair of
 * resources, found under the pair sorted into a canonical key.
 */
module PoolIndex {
  import opened Host

  type PoolKey = (ResourceAddress, ResourceAddress)

  datatype Error = PoolExists  // "A pool already exists for the input resources"

  /** `build_pool_key`: the pair sorted in ascending order. */
  function BuildPoolKey(a: ResourceAddress, b: ResourceAddress): (k: PoolKey)
    ensures k.0 <= k.1
    ensures multiset{k.0, k.1} == multiset{a, b}
  {
    if a <= b then (a, b) else (b, a)
  }

  /** The key does not depend on the order of the two resources. */
  lemma BuildPoolKeySymmetric(a: ResourceAddress, b: ResourceAddress)
    ensures BuildPoolKey(a, b) == BuildPoolKey(b, a)
  {
  }

  /** Two pairs get the same key exactly when they hold the same two resources. */
  lemma {:induction false} BuildPoolKeyCanonical(a: ResourceAddress, b: ResourceAddress,
                                                 c: ResourceAddress, d: ResourceAddress)
    ensures BuildPoolKey(a, b) == BuildPoolKey(c, d) <==> multiset{a, b} == multiset{c, d}
  {
    var k, k' := BuildPoolKey(a, b), BuildPoolKey(c, d);
    if multiset{a, b} == multiset{c, d} {
      assert multiset{k.0, k.1} == multiset{k'.0, k'.1};
      assert k.0 in multiset{k'.0, k'.1} && k'.0 in multiset{k.0, k.1};
      assert k.0 == k'.0;
      assert multiset{k.0, k.1} - multiset{k.0} == multiset{k.1};
      assert multiset{k'.0, k'.1} - multiset{k'.0} == multiset{k'.1};
      assert k.1 in multiset{k'.1};
    }
  }

  /** A pair is a duplicate when its key is already indexed. */
  predicate IsDuplicate(pools: map<PoolKey, Address>, a: ResourceAddress, b: ResourceAddress) {
    BuildPoolKey(a, b) in pools
  }

  /** Duplicate detection ignores the order of the two resources. */
  lemma DuplicateSymmetric(pools: map<PoolKey, Address>, a: ResourceAddress, b: ResourceAddress)
    ensures IsDuplicate(pools, a, b) <==> IsDuplicate(pools, b, a)
  {
    BuildPoolKeySymmetric(a, b);
  }

  /** With only the pool for `{a, b}` indexed, a pair sharing just one resource with it is no duplicate. */
  lemma SharedResourceNotDuplicate(pool: Address, a: ResourceAddress, b: ResourceAddress, c: ResourceAddress)
    requires c != a && c != b
    ensures !IsDuplicate(map[BuildPoolKey(a, b) := pool], a, c)
    ensures !IsDuplicate(map[BuildPoolKey(a, b) := pool], c, b)
  {
    BuildPoolKeyCanonical(a, b, a, c);
    BuildPoolKeyCanonical(a, b, c, b);
    assert multiset{a, b} != multiset{a, c} by {
      assert c in multiset{a, c};
    }
    assert multiset{a, b} != multiset{c, b} by {
      assert c in multiset{c, b};
    }
  }

  class TariswapIndex {
    const poolTemplate: Hash
    var pools: map<PoolKey, Address>
    /** The swap fee of every pool, per thousand. */
    const marketFee: U16

    /** `TariswapIndex::new`. */
    constructor (poolTemplate: Hash, marketFee: U16)
      ensures pools == map[]
      ensures this.poolTemplate == poolTemplate && this.marketFee == marketFee
    {
      this.poolTemplate := poolTemplate;
      pools := map[];
      this.marketFee := marketFee;
    }

    /** `get_pools`: a copy of the index. */
    method GetPools() returns (r: map<PoolKey, Address>)
      ensures r == pools
    {
      r := pools;
    }

    /**
     * `create_pool`: index a new pool for the pair. `poolNew` stands for the
     * pool template's constructor, called with the sorted pair and the
     * index's market fee; it returns the new component's address.
     */
    method CreatePool(aAddr: ResourceAddress, bAddr: ResourceAddress,
                      poolNew: (ResourceAddress, ResourceAddress, U16) -> Address)
      returns (r: Result<Address, Error>)
      modifies this
      ensures r.Failure? <==> IsDuplicate(old(pools), aAddr, bAddr)
      ensures r.Failure? ==> pools == old(pools)
      ensures r.Success? ==>
                var key := BuildPoolKey(aAddr, bAddr);
                && r.value == poolNew(key.0, key.1, marketFee)
                && pools == old(pools)[key := r.value]
                && key !in old(pools)
    {
      var poolKey := BuildPoolKey(aAddr, bAddr);
      if poolKey in pools {
        return Failure(PoolExists);
      }
      var poolComponent := poolNew(poolKey.0, poolKey.1, marketFee);
      pools := pools[poolKey := poolComponent];
      r := Success(poolComponent);
    }
  }
}
