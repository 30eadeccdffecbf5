/** The product-name cache of `get_product_name_cached` and `cleanup_cache`:
    names keyed by "product_{id}", stamped with the time of the lookup that
    fetched them, served for 5 minutes, swept once the cache holds more than
    100 entries. */
module ProductNames {
  import opened Wrappers
  import opened ApiGateway

  /** CACHE_DURATION, 300 s, in milliseconds. */
  const TTL: int := 300_000
  /** The sweep runs when the cache holds more entries than this. */
  const SweepThreshold: nat := 100

  datatype Entry = Entry(name: string, at: int)
  type Entries = map<string, Entry>

  /** The reply of `/products/{id}`: a JSON object, whose `name` field may be
      absent, or None for a reply that is not an object. */
  datatype Product = Product(name: Option<string>)

  function Key(productId: string): string {
    "product_" + productId
  }

  function Placeholder(productId: string): string {
    "Product " + productId
  }

  function ProductRequest(productId: string): Request {
    Request("/products/" + productId, "GET", NoQuery)
  }

  /** `cleanup_cache` deletes entries older than the TTL... */
  predicate Expired(e: Entry, now: int) {
    now - e.at > TTL
  }

  /** ...and a lookup serves entries younger than the TTL. */
  predicate Serves(m: Entries, key: string, now: int) {
    key in m && now - m[key].at < TTL
  }

  /** The cache after `cleanup_cache` at `now`. */
  function Swept(m: Entries, now: int): (r: Entries)
    ensures forall k :: k in r <==> k in m && !Expired(m[k], now)
    ensures forall k :: k in r ==> r[k] == m[k]
  {
    map k | k in m && !Expired(m[k], now) :: m[k]
  }

  /** The housekeeping at the start of a lookup. */
  function Housekept(m: Entries, now: int): Entries {
    if |m| > SweepThreshold then Swept(m, now) else m
  }

  datatype Lookup = Lookup(name: string, entries: Entries)

  /** What a lookup that missed returns and leaves, given what the fetch gave. */
  function Remember(m: Entries, productId: string, fetched: Result<Option<Product>, ApiError>, start: int): Lookup {
    match fetched
    case Success(Some(p)) =>
      var name := p.name.GetOr(Placeholder(productId));
      Lookup(name, m[Key(productId) := Entry(name, start)])
    case _ => Lookup(Placeholder(productId), m)
  }

  /** An entry exactly TTL old is neither served nor swept. */
  lemma AgeOfTTLNeitherServedNorSwept(m: Entries, key: string, now: int)
    requires key in m && now - m[key].at == TTL
    ensures !Serves(m, key, now)
    ensures key in Swept(m, now) && Swept(m, now)[key] == m[key]
  {
  }

  /** A sweep never removes an entry a lookup would still serve. */
  lemma SweepKeepsServable(m: Entries, key: string, now: int)
    ensures Serves(Housekept(m, now), key, now) <==> Serves(m, key, now)
  {
  }

  /** A successful fetch stores the name with the lookup's start time and
      returns it; a failed one returns the placeholder and writes nothing. */
  lemma RememberWritesOnlyOnSuccess(m: Entries, productId: string, fetched: Result<Option<Product>, ApiError>, start: int)
    ensures var r := Remember(m, productId, fetched, start);
      if fetched.Success? && fetched.value.Some? then
        && r.entries.Keys == m.Keys + {Key(productId)}
        && r.entries[Key(productId)] == Entry(r.name, start)
        && (forall k :: k in m && k != Key(productId) ==> r.entries[k] == m[k])
        && r.name == fetched.value.value.name.GetOr(Placeholder(productId))
      else r == Lookup(Placeholder(productId), m)
  {
  }

  /** Two lookups of the same product less than a TTL apart: the second is
      served from the cache with the name the first one fetched. */
  lemma RepeatWithinTTLHits(m: Entries, productId: string, p: Product, start: int, later: int)
    requires later - start < TTL
    ensures var r := Remember(Housekept(m, start), productId, Success(Some(p)), start);
      && Serves(Housekept(r.entries, later), Key(productId), later)
      && Housekept(r.entries, later)[Key(productId)].name == r.name
  {
    var r := Remember(Housekept(m, start), productId, Success(Some(p)), start);
    SweepKeepsServable(r.entries, Key(productId), later);
  }

  /** Once a TTL has passed, the second lookup fetches again. */
  lemma RepeatAfterTTLMisses(m: Entries, productId: string, p: Product, start: int, later: int)
    requires later - start >= TTL
    ensures var r := Remember(Housekept(m, start), productId, Success(Some(p)), start);
      !Serves(Housekept(r.entries, later), Key(productId), later)
  {
    var r := Remember(Housekept(m, start), productId, Success(Some(p)), start);
    SweepKeepsServable(r.entries, Key(productId), later);
  }

  class ProductCache {
    /** `product_cache`. */
    var entries: Entries
    const gateway: Gateway

    ghost predicate Valid()
      reads this, gateway, gateway.limiter, gateway.clock
    {
      gateway.Valid()
    }

    constructor (gateway: Gateway)
      requires gateway.Valid()
      ensures this.gateway == gateway && entries == map[] && Valid()
    {
      this.gateway := gateway;
      entries := map[];
    }

    /** `cleanup_cache`: collect the expired keys, then delete them. */
    method Cleanup()
      modifies this
      ensures entries == Swept(old(entries), gateway.clock.now)
    {
      var now := gateway.clock.now;
      var expired: set<string> := {};
      var unseen := entries.Keys;
      while unseen != {}
        invariant unseen <= entries.Keys && entries == old(entries)
        invariant forall k :: k in expired <==> k in entries && k !in unseen && Expired(entries[k], now)
        decreases unseen
      {
        var k :| k in unseen;
        if Expired(entries[k], now) {
          expired := expired + {k};
        }
        unseen := unseen - {k};
      }
      var doomed := expired;
      while doomed != {}
        invariant doomed <= expired
        invariant entries == old(entries) - (expired - doomed)
        decreases doomed
      {
        var k :| k in doomed;
        entries := entries - {k};
        doomed := doomed - {k};
      }
      assert entries == Swept(old(entries), now);
    }

    /** `get_product_name_cached`. */
    method GetName(productId: string, server: Server<Option<Product>>) returns (name: string)
      requires Valid()
      modifies this, gateway, gateway.limiter, gateway.clock
      ensures Valid()
      ensures var start := old(gateway.clock.now);
        var m := Housekept(old(entries), start);
        if Serves(m, Key(productId), start) then
          && name == m[Key(productId)].name && entries == m
          && gateway.sent == old(gateway.sent)
          && gateway.limiter.lastCall == old(gateway.limiter.lastCall)
          && gateway.clock.now == start
        else
          var x := Step(gateway.creds, ProductRequest(productId), server, old(gateway.limiter.lastCall), start);
          && Lookup(name, entries) == Remember(m, productId, x.result, start)
          && gateway.sent == old(gateway.sent) + x.sent
          && gateway.limiter.lastCall == x.last && gateway.clock.now == x.now
    {
      var start := gateway.clock.now;
      var key := Key(productId);
      if |entries| > SweepThreshold {
        Cleanup();
      }
      if key in entries {
        var cached := entries[key];
        if start - cached.at < TTL {
          return cached.name;
        }
      }
      var fetched := gateway.Call(ProductRequest(productId), server);
      match fetched {
        case Success(Some(p)) =>
          name := p.name.GetOr(Placeholder(productId));
          entries := entries[key := Entry(name, start)];
        case _ =>
          name := Placeholder(productId);
      }
    }
  }
}
