/** `geocodeAddress` from src/lib/geocoding.ts: a cache-first Nominatim lookup. In the
    browser the cache is the `kebab_geo_cache` entry of local storage; on the server
    there is no cache at all. */
module Geocoding {
  import opened Common

  /** The effect of one call: the cache afterwards, whether a request went out, the answer. */
  datatype LookupOutcome = LookupOutcome(cache: map<string, Coords>, requested: bool, result: Option<Coords>)

  /** One call. `inBrowser` is `typeof window !== 'undefined'`; `nominatim` gives the
      provider's first result for a query, `None` for an empty list or a thrown error. */
  function CachedLookup(inBrowser: bool, cache: map<string, Coords>, nominatim: string -> Option<Coords>,
                        address: string): (o: LookupOutcome)
    // a browser-side hit: no request, the cached value, the cache untouched
    ensures inBrowser && address in cache ==> o == LookupOutcome(cache, false, Some(cache[address]))
    // otherwise exactly one request, whose answer is returned as it is
    ensures !(inBrowser && address in cache) ==> o.requested && o.result == nominatim(address)
    // the cache gains at most the exact address, and only in the browser on a success
    ensures o.cache.Keys == cache.Keys + (if inBrowser && o.result.Some? then {address} else {})
    ensures inBrowser && o.result.Some? ==> o.cache[address] == o.result.value
    // no other entry changes; a failure or a server-side call changes nothing
    ensures forall a :: a in cache && a != address ==> o.cache[a] == cache[a]
    ensures o.result.None? || !inBrowser ==> o.cache == cache
  {
    if inBrowser && address in cache then
      LookupOutcome(cache, false, Some(cache[address]))
    else
      var r := nominatim(address);
      LookupOutcome(if inBrowser && r.Some? then cache[address := r.value] else cache, true, r)
  }

  /** After a successful browser-side lookup, asking again for the same address gives the
      same coordinates from the cache, without a request. */
  lemma RepeatLookupIsCached(cache: map<string, Coords>, nominatim: string -> Option<Coords>, address: string)
    requires CachedLookup(true, cache, nominatim, address).result.Some?
    ensures var first := CachedLookup(true, cache, nominatim, address);
      CachedLookup(true, first.cache, nominatim, address) == LookupOutcome(first.cache, false, first.result)
  {
  }

  /** The cache is never shrunk and no entry is ever replaced. */
  lemma LookupOnlyAdds(inBrowser: bool, cache: map<string, Coords>, nominatim: string -> Option<Coords>, address: string)
    ensures var o := CachedLookup(inBrowser, cache, nominatim, address);
      cache.Keys <= o.cache.Keys && forall a :: a in cache ==> o.cache[a] == cache[a]
  {
  }

  /** The calls of a sequence of lookups, one after another. */
  datatype Session = Session(cache: map<string, Coords>, requests: seq<string>, results: seq<Option<Coords>>)

  /** Looking up `addresses` in order, each call seeing the cache the previous ones left. */
  function LookupAll(inBrowser: bool, cache: map<string, Coords>, nominatim: string -> Option<Coords>,
                     addresses: seq<string>): (s: Session)
    ensures |s.results| == |addresses| && |s.requests| <= |addresses|
    ensures cache.Keys <= s.cache.Keys && forall a :: a in cache ==> s.cache[a] == cache[a]
    ensures forall a :: a in s.requests ==> a in addresses
    ensures !inBrowser ==> s.requests == addresses && s.cache == cache
    decreases |addresses|
  {
    if addresses == [] then Session(cache, [], [])
    else
      var n := |addresses| - 1;
      var s := LookupAll(inBrowser, cache, nominatim, addresses[..n]);
      var o := CachedLookup(inBrowser, s.cache, nominatim, addresses[n]);
      assert addresses == addresses[..n] + [addresses[n]];
      Session(o.cache, s.requests + (if o.requested then [addresses[n]] else []), s.results + [o.result])
  }

  lemma LookupAllStep(inBrowser: bool, cache: map<string, Coords>, nominatim: string -> Option<Coords>,
                      addresses: seq<string>, i: nat)
    requires i < |addresses|
    ensures var s := LookupAll(inBrowser, cache, nominatim, addresses[..i]);
      var o := CachedLookup(inBrowser, s.cache, nominatim, addresses[i]);
      LookupAll(inBrowser, cache, nominatim, addresses[..i + 1])
        == Session(o.cache, s.requests + (if o.requested then [addresses[i]] else []), s.results + [o.result])
  {
    assert addresses[..i + 1][..i] == addresses[..i];
  }

  /** Every entry a sequence of lookups adds is a browser-side Nominatim answer for its own address. */
  lemma {:induction false} LookupAllAdds(inBrowser: bool, cache: map<string, Coords>,
                                         nominatim: string -> Option<Coords>, addresses: seq<string>)
    ensures var s := LookupAll(inBrowser, cache, nominatim, addresses);
      forall a :: a in s.cache && a !in cache ==> inBrowser && Some(s.cache[a]) == nominatim(a)
    decreases |addresses|
  {
    if addresses != [] {
      var n := |addresses| - 1;
      LookupAllAdds(inBrowser, cache, nominatim, addresses[..n]);
      var s := LookupAll(inBrowser, cache, nominatim, addresses[..n]);
      var o := CachedLookup(inBrowser, s.cache, nominatim, addresses[n]);
      assert LookupAll(inBrowser, cache, nominatim, addresses).cache == o.cache;
    }
  }

  /** One lookup made after earlier ones answers as if only the starting cache existed. */
  lemma StepAnswer(inBrowser: bool, cache: map<string, Coords>, later: map<string, Coords>,
                   nominatim: string -> Option<Coords>, x: string)
    requires cache.Keys <= later.Keys && forall a :: a in cache ==> later[a] == cache[a]
    requires forall a :: a in later && a !in cache ==> inBrowser && Some(later[a]) == nominatim(a)
    ensures CachedLookup(inBrowser, later, nominatim, x).result
      == (if inBrowser && x in cache then Some(cache[x]) else nominatim(x))
  {
  }

  /** What each lookup of a sequence answers: from the stored cache in the browser when the
      address was cached before the sequence began, from Nominatim otherwise (an address
      stored earlier in the sequence was stored with that same answer). */
  lemma {:induction false} LookupAllAnswers(inBrowser: bool, cache: map<string, Coords>,
                                            nominatim: string -> Option<Coords>, addresses: seq<string>)
    ensures var s := LookupAll(inBrowser, cache, nominatim, addresses);
      forall i :: 0 <= i < |addresses| ==>
        s.results[i] == (if inBrowser && addresses[i] in cache then Some(cache[addresses[i]]) else nominatim(addresses[i]))
    decreases |addresses|
  {
    if addresses != [] {
      var n := |addresses| - 1;
      var prev := addresses[..n];
      LookupAllAnswers(inBrowser, cache, nominatim, prev);
      LookupAllAdds(inBrowser, cache, nominatim, prev);
      var s := LookupAll(inBrowser, cache, nominatim, prev);
      StepAnswer(inBrowser, cache, s.cache, nominatim, addresses[n]);
      LookupAllStep(inBrowser, cache, nominatim, addresses, n);
      WholeSlice(addresses);
      var results := LookupAll(inBrowser, cache, nominatim, addresses).results;
      assert results == s.results + [CachedLookup(inBrowser, s.cache, nominatim, addresses[n]).result];
      forall i | 0 <= i < |addresses|
        ensures results[i] == (if inBrowser && addresses[i] in cache then Some(cache[addresses[i]]) else nominatim(addresses[i]))
      {
        if i < n {
          assert prev[i] == addresses[i];
        }
      }
    }
  }

  /** The browser-side client: the stored cache and a log of the requests sent. */
  class GeocodingClient {
    const inBrowser: bool
    const nominatim: string -> Option<Coords>
    var cache: map<string, Coords>
    var requests: seq<string>

    constructor (inBrowser: bool, nominatim: string -> Option<Coords>, stored: map<string, Coords>)
      ensures this.inBrowser == inBrowser && this.nominatim == nominatim
      ensures cache == stored && requests == []
    {
      this.inBrowser := inBrowser;
      this.nominatim := nominatim;
      cache := stored;
      requests := [];
    }

    /** `geocodeAddress(address)`. */
    method GeocodeAddress(address: string) returns (coords: Option<Coords>)
      modifies this
      ensures var o := CachedLookup(inBrowser, old(cache), nominatim, address);
        coords == o.result && cache == o.cache
        && requests == old(requests) + (if o.requested then [address] else [])
    {
      if inBrowser {
        var stored := cache;
        if address in stored {
          return Some(stored[address]);
        }
      }
      requests := requests + [address];
      var found := nominatim(address);
      if found.Some? {
        if inBrowser {
          var stored := cache;
          stored := stored[address := found.value];
          cache := stored;
        }
        return found;
      }
      return None;
    }
  }
}
