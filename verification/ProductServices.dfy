/** The product service, written as the source writes it: cache-aside reads, invalidate-on-write. */
module ProductServices {
  import opened RedisKeys
  import opened RedisServices

  type ProductId = nat

  datatype Product = Product(id: ProductId, name: string, price: int)

  const CACHE_TTL := 60

  /** The decimal digits of n, as the key template prints them. */
  function Digits(n: nat): string {
    if n < 10 then ["0123456789"[n]] else Digits(n / 10) + ["0123456789"[n % 10]]
  }

  function CacheKey(id: ProductId): string {
    "product:" + Digits(id)
  }

  function Value(s: string): nat {
    if s == [] then 0
    else
      var c := s[|s| - 1];
      10 * Value(s[..|s| - 1]) + if '0' <= c <= '9' then (c - '0') as nat else 0
  }

  lemma ValueOfAppend(s: string, d: nat)
    requires d < 10
    ensures Value(s + ["0123456789"[d]]) == 10 * Value(s) + d
  {
    assert (s + ["0123456789"[d]])[..|s|] == s;
  }

  lemma {:induction false} ValueOfDigits(n: nat)
    ensures Value(Digits(n)) == n
  {
    if n < 10 {
      ValueOfAppend([], n);
      assert Digits(n) == [] + ["0123456789"[n]];
    } else {
      ValueOfDigits(n / 10);
      ValueOfAppend(Digits(n / 10), n % 10);
    }
  }

  /** Different products have different cache keys. */
  lemma KeysAreDistinct(a: ProductId, b: ProductId)
    requires CacheKey(a) == CacheKey(b)
    ensures a == b
  {
    assert CacheKey(a)[8..] == Digits(a) && CacheKey(b)[8..] == Digits(b);
    ValueOfDigits(a);
    ValueOfDigits(b);
  }

  /** The cache entry after some reads of product p: the first one that misses and stores fills it. */
  function Filled(e: Entry<Product>, p: Product, puts: seq<Reply>, now: nat): Entry<Product> {
    if puts == [] then e
    else
      var before := Filled(e, p, puts[..|puts| - 1], now);
      if before.Nothing? && Applied(puts[|puts| - 1]) then Entry(p, now + 60_000) else before
  }

  class ProductService {
    const redis: RedisService<Product>
    var table: map<ProductId, Product>

    constructor (redis: RedisService<Product>)
      ensures this.redis == redis && table == map[]
    {
      this.redis, table := redis, map[];
    }

    /** What is cached under a product's key, if anything. */
    function Cached(id: ProductId): Entry<Product>
      reads this, redis
    {
      redis.Key(CacheKey(id))
    }

    /** From the cache when it answers, else from the database, which also fills the cache; fails when the
        product does not exist. */
    method FindById(id: ProductId, get: Reply, put: Reply) returns (r: Result<Product>)
      modifies redis
      ensures redis.now == old(redis.now)
      ensures get.Replied? && old(Cached(id)).Entry? ==>
                r == Success(old(Cached(id)).value) && Cached(id) == old(Cached(id))
      ensures !(get.Replied? && old(Cached(id)).Entry?) ==>
                if id !in table then r.Failure? && Cached(id) == old(Cached(id))
                else
                  && r == Success(table[id])
                  && Cached(id) == if Applied(put) then Entry(table[id], redis.now + 60_000) else old(Cached(id))
      ensures forall other :: other != id ==> Cached(other) == old(Cached(other))
    {
      forall other | other != id ensures CacheKey(other) != CacheKey(id) {
        if CacheKey(other) == CacheKey(id) { KeysAreDistinct(other, id); }
      }
      var cached := redis.Get(CacheKey(id), get);
      if cached.Some? {
        return Success(cached.value);
      }
      if id !in table {
        return Failure;
      }
      var product := table[id];
      redis.Set(CacheKey(id), product, CACHE_TTL, put);
      r := Success(product);
    }

    /** Reads of the product by other instances, whose cache writes end as given. */
    method OthersRead(id: ProductId, puts: seq<Reply>)
      requires id in table
      modifies redis
      ensures redis.now == old(redis.now)
      ensures Cached(id) == Filled(old(Cached(id)), table[id], puts, redis.now)
      ensures forall other :: other != id ==> Cached(other) == old(Cached(other))
    {
      var i := 0;
      while i < |puts|
        invariant 0 <= i <= |puts| && redis.now == old(redis.now)
        invariant Cached(id) == Filled(old(Cached(id)), table[id], puts[..i], redis.now)
        invariant forall other :: other != id ==> Cached(other) == old(Cached(other))
      {
        assert puts[..i + 1][..i] == puts[..i];
        var _ := FindById(id, Replied, puts[i]);
        i := i + 1;
      }
      assert puts[..i] == puts;
    }

    /** The row is written first, others may read and cache the new row, and then the key is deleted; fails
        when the product does not exist. */
    method UpdatePrice(id: ProductId, price: int, puts: seq<Reply>, del: Reply) returns (r: Result<Product>)
      modifies this, redis
      ensures redis.now == old(redis.now)
      ensures r.Success? <==> id in old(table)
      ensures r.Failure? ==> table == old(table) && Cached(id) == old(Cached(id))
      ensures r.Success? ==>
                && r.value == old(table)[id].(price := price) && table == old(table)[id := r.value]
                && Cached(id) == if Applied(del) then Nothing else Filled(old(Cached(id)), r.value, puts, redis.now)
      ensures forall other :: other != id ==> Cached(other) == old(Cached(other))
    {
      forall other | other != id ensures CacheKey(other) != CacheKey(id) {
        if CacheKey(other) == CacheKey(id) { KeysAreDistinct(other, id); }
      }
      if id !in table {
        return Failure;
      }
      var product := table[id].(price := price);
      table := table[id := product];
      assert forall other :: Cached(other) == old(Cached(other));
      OthersRead(id, puts);
      redis.Del(CacheKey(id), del);
      r := Success(product);
    }
  }
}
