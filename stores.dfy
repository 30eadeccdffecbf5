/** The store resolver of `get_actual_store_id`: which store of the account the
    sales queries use, found once per process and then cached. */
module Stores {
  import opened Wrappers
  import opened Auth
  import opened ApiGateway

  /** A store object of `/stores`: its `id` (None when the field is absent) and
      its `name` ("" when absent, as `.get("name", "")` gives). */
  datatype Store = Store(id: Option<string>, name: string)

  const StoresRequest: Request := Request("/stores", "GET", NoQuery)

  function LowerChar(c: char): char {
    if 'A' <= c <= 'Z' then (c as int - 'A' as int + 'a' as int) as char else c
  }

  /** `str.lower()` on ASCII letters. */
  function Lower(s: string): string {
    seq(|s|, i requires 0 <= i < |s| => LowerChar(s[i]))
  }

  /** Python's `needle in haystack` for strings. */
  predicate Contains(haystack: string, needle: string)
    decreases |haystack|
  {
    needle <= haystack || (haystack != [] && Contains(haystack[1..], needle))
  }

  predicate OccursAt(haystack: string, needle: string, i: int) {
    0 <= i <= |haystack| - |needle| && haystack[i..i + |needle|] == needle
  }

  lemma OccursShift(haystack: string, needle: string, i: int)
    requires haystack != [] && i >= 0
    ensures OccursAt(haystack, needle, i + 1) <==> OccursAt(haystack[1..], needle, i)
  {
    if 0 <= i <= |haystack| - 1 - |needle| {
      assert haystack[1..][i..i + |needle|] == haystack[i + 1..i + 1 + |needle|];
    }
  }

  /** `in` finds the needle at some offset of the haystack, and only then. */
  lemma {:induction false} ContainsAtOffset(haystack: string, needle: string)
    ensures Contains(haystack, needle) <==> exists i :: OccursAt(haystack, needle, i)
    decreases |haystack|
  {
    if needle <= haystack {
      assert OccursAt(haystack, needle, 0);
    } else if haystack != [] {
      ContainsAtOffset(haystack[1..], needle);
      if exists i :: OccursAt(haystack, needle, i) {
        var i :| OccursAt(haystack, needle, i);
        assert i != 0;
        OccursShift(haystack, needle, i - 1);
      }
      if exists i :: OccursAt(haystack[1..], needle, i) {
        var i :| OccursAt(haystack[1..], needle, i);
        OccursShift(haystack, needle, i);
      }
    }
  }

  /** The test of the loop at main.py:1145-1147 for the configured account id. */
  predicate Matches(account: string, s: Store) {
    || account == s.id.GetOr("")
    || Lower(account) == Lower(s.name)
    || Contains(Lower(s.name), Lower(account))
  }

  /** The case-insensitive equality test is subsumed by the substring test. */
  lemma MatchIsIdOrSubstring(account: string, s: Store)
    ensures Matches(account, s) <==> account == s.id.GetOr("") || Contains(Lower(s.name), Lower(account))
  {
  }

  /** The index of the first matching store, if any. */
  function FirstMatch(account: string, stores: seq<Store>): (r: Option<nat>)
    ensures r.Some? ==> r.value < |stores| && Matches(account, stores[r.value])
    ensures r.Some? ==> forall j :: 0 <= j < r.value ==> !Matches(account, stores[j])
    ensures r.None? ==> forall j :: 0 <= j < |stores| ==> !Matches(account, stores[j])
    decreases |stores|
  {
    if stores == [] then None
    else if Matches(account, stores[0]) then Some(0)
    else match FirstMatch(account, stores[1..])
      case None => None
      case Some(i) => Some(i + 1)
  }

  /** The id the resolver settles on for a non-empty store list. */
  function Choose(account: string, stores: seq<Store>): Option<string>
    requires stores != []
  {
    if |stores| == 1 then stores[0].id
    else match FirstMatch(account, stores)
      case Some(i) => Some(stores[i].id.GetOr(""))
      case None => stores[0].id
  }

  /** A single store is taken without looking at its id or name. */
  lemma SingleStoreIsTaken(account: string, s: Store)
    ensures Choose(account, [s]) == s.id
  {
  }

  /** Among several stores the first one that matches wins. */
  lemma FirstMatchingStoreWins(account: string, stores: seq<Store>, k: nat)
    requires |stores| > 1 && k < |stores| && Matches(account, stores[k])
    requires forall j :: 0 <= j < k ==> !Matches(account, stores[j])
    ensures Choose(account, stores) == Some(stores[k].id.GetOr(""))
  {
  }

  /** With no match the first store is taken. */
  lemma NoMatchTakesFirst(account: string, stores: seq<Store>)
    requires |stores| > 1
    requires forall j :: 0 <= j < |stores| ==> !Matches(account, stores[j])
    ensures Choose(account, stores) == stores[0].id
  {
  }

  /** `actual_store_id_cache` holds a usable id when it is truthy. */
  predicate Truthy(id: Option<string>) {
    id.Some? && id.value != ""
  }

  datatype Resolved = Resolved(id: Option<string>, cache: Option<string>)

  /** What a resolution that could not use the cache returns and caches. */
  function Resolution(cache: Option<string>, account: string, fetched: Result<seq<Store>, ApiError>): (r: Resolved)
  {
    match fetched
    case Failure(_) => Resolved(None, cache)
    case Success(stores) =>
      if stores == [] then Resolved(None, cache)
      else var id := Choose(account, stores); Resolved(id, id)
  }

  /** A failed fetch or an empty list returns None and leaves the cache alone;
      otherwise the returned id is exactly what is cached. */
  lemma ResolutionCachesWhatItReturns(cache: Option<string>, account: string, fetched: Result<seq<Store>, ApiError>)
    ensures var r := Resolution(cache, account, fetched);
      if fetched.Failure? || fetched.value == [] then r.id == None && r.cache == cache
      else r.cache == r.id && r.id == Choose(account, fetched.value)
  {
  }

  /** The whole effect of `get_actual_store_id`: the id returned, the cache
      afterwards, what was sent, and the limiter stamp and clock afterwards. */
  datatype Lookup = Lookup(id: Option<string>, cache: Option<string>, sent: seq<Sent>, last: int, now: int)

  function StoreLookup(creds: Credentials, cache: Option<string>, server: Server<seq<Store>>, last: int, now: int): (y: Lookup)
    // A usable cached id is returned without a request.
    ensures Truthy(cache) ==> y == Lookup(cache, cache, [], last, now)
    // Any id returned is the one cached afterwards.
    ensures y.id.Some? ==> y.cache == y.id
    // Nothing but `/stores` is asked for.
    ensures forall i :: 0 <= i < |y.sent| ==> y.sent[i].request == StoresRequest
  {
    if Truthy(cache) then Lookup(cache, cache, [], last, now)
    else
      var x := Step(creds, StoresRequest, server, last, now);
      StepSendsOnlyItsRequest(creds, StoresRequest, server, last, now);
      var r := Resolution(cache, creds.accountId, x.result);
      Lookup(r.id, r.cache, x.sent, x.last, x.now)
  }

  class StoreResolver {
    /** `actual_store_id_cache`. */
    var cached: Option<string>
    const gateway: Gateway

    ghost predicate Valid()
      reads this, gateway, gateway.limiter, gateway.clock
    {
      gateway.Valid()
    }

    constructor (gateway: Gateway)
      requires gateway.Valid()
      ensures this.gateway == gateway && cached == None && Valid()
    {
      this.gateway := gateway;
      cached := None;
    }

    /** `get_actual_store_id`. */
    method Resolve(server: Server<seq<Store>>) returns (id: Option<string>)
      requires Valid()
      modifies this, gateway, gateway.limiter, gateway.clock
      ensures Valid()
      ensures Truthy(old(cached)) ==>
        && id == old(cached) && cached == old(cached)
        && gateway.sent == old(gateway.sent)
        && gateway.limiter.lastCall == old(gateway.limiter.lastCall)
        && gateway.clock.now == old(gateway.clock.now)
      ensures !Truthy(old(cached)) ==>
        var x := Step(gateway.creds, StoresRequest, server, old(gateway.limiter.lastCall), old(gateway.clock.now));
        && Resolved(id, cached) == Resolution(old(cached), gateway.creds.accountId, x.result)
        && gateway.sent == old(gateway.sent) + x.sent
        && gateway.limiter.lastCall == x.last && gateway.clock.now == x.now
    {
      if cached.Some? && cached.value != "" {
        return cached;
      }
      ghost var last, now := gateway.limiter.lastCall, gateway.clock.now;
      var fetched := gateway.Call(StoresRequest, server);
      ghost var x := Step(gateway.creds, StoresRequest, server, last, now);
      assert fetched == x.result;
      if fetched.Failure? {
        return None;
      }
      var stores := fetched.value;
      if |stores| == 0 {
        return None;
      }
      id := Pick(gateway.creds.accountId, stores);
      cached := id;
    }
  }

  /** The choice made by `get_actual_store_id` once the store list is in hand:
      the single store, else the first match of the `for store in stores_data`
      loop, else the first store. */
  method Pick(account: string, stores: seq<Store>) returns (id: Option<string>)
    requires stores != []
    ensures id == Choose(account, stores)
  {
    if |stores| == 1 {
      return stores[0].id;
    }
    for i := 0 to |stores|
      invariant forall j :: 0 <= j < i ==> !Matches(account, stores[j])
    {
      if Matches(account, stores[i]) {
        FirstMatchingStoreWins(account, stores, i);
        return Some(stores[i].id.GetOr(""));
      }
    }
    NoMatchTakesFirst(account, stores);
    return stores[0].id;
  }
}
