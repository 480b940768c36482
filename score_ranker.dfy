/** `loadCoordinates` and the `topShops` list of src/components/KebabMap.tsx: keep the
    shops that already have coordinates, cut them to a radius around the user, order them
    by score, badge the first ten, and geocode a few more on demand when too few remain. */
module ScoreRanker {
  import opened Common
  import opened StableSort
  import Geocoding

  /** A row of the listing as the map sees it. `rating` is `parseFloat` of the rating
      column (`None` where that gives NaN); `lat`/`lon` are the pre-geocoded coordinates. */
  datatype Shop = Shop(name: string, suburb: string, postcode: string,
                       rating: Option<real>, lat: Option<real>, lon: Option<real>)

  /** A shop placed on the map: its coordinates, its distance from the user when one is
      known, and its rank badge (`rankDistance`) when it has one. */
  datatype Entry = Entry(shop: Shop, lat: real, lon: real, distance: Option<real>, rank: Option<nat>)

  const RadiusKm: real := 100.0
  const RatingWeight: real := 10.0
  const DistanceWeight: real := 2.0
  const TopN: nat := 10
  const SparseBelow: nat := 5
  const WidenLimit: nat := 5

  /** JavaScript truthiness of a coordinate: present and not zero. */
  predicate Truthy(x: Option<real>)
  {
    x.Some? && x.value != 0.0
  }

  /** `parseFloat(String(shop['Ox Rating'])) || 0`. */
  function RatingOf(s: Shop): real
  {
    if s.rating.Some? then s.rating.value else 0.0
  }

  /** `shop.distance || 0`. */
  function DistanceOf(e: Entry): real
  {
    if e.distance.Some? then e.distance.value else 0.0
  }

  /** The "Kebab Director Score": one rating point is worth five kilometres. */
  function Score(e: Entry): real
  {
    RatingOf(e.shop) * RatingWeight - DistanceOf(e) * DistanceWeight
  }

  predicate IsPreGeocoded(s: Shop)
  {
    Truthy(s.lat) && Truthy(s.lon)
  }

  predicate IsUnlocated(s: Shop)
  {
    !Truthy(s.lat) && !Truthy(s.lon)
  }

  function Placed(s: Shop): Entry
    requires IsPreGeocoded(s)
  {
    Entry(s, s.lat.value, s.lon.value, None, None)
  }

  /** `shops.filter(s => s.lat && s.lon)`. */
  function PreGeocoded(shops: seq<Shop>): (r: seq<Entry>)
    ensures |r| <= |shops|
    ensures forall e :: e in r ==> e.shop in shops && IsPreGeocoded(e.shop) && e == Placed(e.shop)
    ensures forall s :: s in shops && IsPreGeocoded(s) ==> Placed(s) in r
  {
    if shops == [] then []
    else (if IsPreGeocoded(shops[0]) then [Placed(shops[0])] else []) + PreGeocoded(shops[1..])
  }

  lemma {:induction false} PreGeocodedAppend(a: seq<Shop>, b: seq<Shop>)
    ensures PreGeocoded(a + b) == PreGeocoded(a) + PreGeocoded(b)
    decreases |a|
  {
    if a == [] {
      assert a + b == b;
    } else {
      assert (a + b)[1..] == a[1..] + b;
      PreGeocodedAppend(a[1..], b);
      AppendAssoc(if IsPreGeocoded(a[0]) then [Placed(a[0])] else [], PreGeocoded(a[1..]), PreGeocoded(b));
    }
  }

  /** The map step that attaches `calculateDistance(userLocation, shop)` to every entry. */
  function WithDistances(es: seq<Entry>, user: Coords, dist: (Coords, Coords) -> real): (r: seq<Entry>)
    ensures |r| == |es|
  {
    seq(|es|, i requires 0 <= i < |es| => es[i].(distance := Some(dist(user, Coords(es[i].lat, es[i].lon)))))
  }

  /** `filter(s => (s.distance || 0) <= 100)`. */
  function WithinRadius(es: seq<Entry>): (r: seq<Entry>)
    ensures |r| <= |es|
    ensures forall e :: e in r <==> e in es && DistanceOf(e) <= RadiusKm
  {
    if es == [] then []
    else (if DistanceOf(es[0]) <= RadiusKm then [es[0]] else []) + WithinRadius(es[1..])
  }

  lemma {:induction false} WithinRadiusAppend(a: seq<Entry>, b: seq<Entry>)
    ensures WithinRadius(a + b) == WithinRadius(a) + WithinRadius(b)
    decreases |a|
  {
    if a == [] {
      assert a + b == b;
    } else {
      assert (a + b)[1..] == a[1..] + b;
      WithinRadiusAppend(a[1..], b);
      AppendAssoc(if DistanceOf(a[0]) <= RadiusKm then [a[0]] else [], WithinRadius(a[1..]), WithinRadius(b));
    }
  }

  /** The in-place `sort` by descending score; `Array.prototype.sort` is stable. */
  function ByScore(es: seq<Entry>): seq<Entry>
  {
    Sort(es, Score)
  }

  /** `map((shop, index) => ({ ...shop, rankDistance: index < 10 ? index + 1 : undefined }))`. */
  function AssignRanks(es: seq<Entry>): (r: seq<Entry>)
    ensures |r| == |es| && BadgesInOrder(r)
    ensures forall i :: 0 <= i < |r| ==> r[i].(rank := es[i].rank) == es[i]
  {
    seq(|es|, i requires 0 <= i < |es| => es[i].(rank := if i < TopN then Some(i + 1) else None))
  }

  /** The list after steps 1 and 2: all pre-geocoded shops without a user location;
      otherwise those within the radius, by score, badged. */
  function InitialView(shops: seq<Shop>, user: Option<Coords>, dist: (Coords, Coords) -> real): (r: seq<Entry>)
    ensures |r| <= |PreGeocoded(shops)|
    ensures user.None? ==> forall e :: e in r ==> e.rank.None? && e.distance.None?
  {
    var pre := PreGeocoded(shops);
    if user.None? then pre
    else AssignRanks(ByScore(WithinRadius(WithDistances(pre, user.value, dist))))
  }

  /** `shops.filter(s => !s.lat && !s.lon)`. */
  function Unlocated(shops: seq<Shop>): (r: seq<Shop>)
    ensures |r| <= |shops|
    ensures forall s :: s in r <==> s in shops && IsUnlocated(s)
  {
    if shops == [] then []
    else (if IsUnlocated(shops[0]) then [shops[0]] else []) + Unlocated(shops[1..])
  }

  lemma {:induction false} UnlocatedAppend(a: seq<Shop>, b: seq<Shop>)
    ensures Unlocated(a + b) == Unlocated(a) + Unlocated(b)
    decreases |a|
  {
    if a == [] {
      assert a + b == b;
    } else {
      assert (a + b)[1..] == a[1..] + b;
      UnlocatedAppend(a[1..], b);
      AppendAssoc(if IsUnlocated(a[0]) then [a[0]] else [], Unlocated(a[1..]), Unlocated(b));
    }
  }

  /** The shops geocoded on demand: the unlocated ones, highest rating first, at most five. */
  function WideningCandidates(shops: seq<Shop>): seq<Shop>
  {
    Take(Sort(Unlocated(shops), RatingOf), WidenLimit)
  }

  /** The query sent for a shop found on demand. */
  function Address(s: Shop): string
  {
    s.name + ", " + s.suburb + " " + s.postcode + ", Australia"
  }

  function Addresses(cands: seq<Shop>): (r: seq<string>)
    ensures |r| == |cands|
  {
    seq(|cands|, i requires 0 <= i < |cands| => Address(cands[i]))
  }

  /** The shop built from an on-demand result, `{ ...shop, ...coords }`. */
  function Found(s: Shop, c: Coords): Entry
  {
    Entry(s, c.lat, c.lon, None, None)
  }

  /** An entry the widening loop pushes: a candidate at the coordinates it was found at,
      unbadged, with its distance from the user (then within the radius) when there is a user. */
  predicate Pushed(e: Entry, cands: seq<Shop>, user: Option<Coords>, dist: (Coords, Coords) -> real)
  {
    && e.shop in cands && e.rank.None?
    && (user.None? ==> e.distance.None?)
    && (user.Some? ==> e.distance == Some(dist(user.value, Coords(e.lat, e.lon))) && e.distance.value <= RadiusKm)
  }

  /** What the widening loop pushes for one candidate `s` whose lookup gave `f`: nothing
      for a miss, or for a find beyond the radius when there is a user location; otherwise
      the candidate at the coordinates found, unbadged, with its distance when there is a user. */
  function Pick(s: Shop, f: Option<Coords>, user: Option<Coords>, dist: (Coords, Coords) -> real): (r: seq<Entry>)
    ensures |r| <= 1
    ensures r != [] <==> f.Some? && (user.Some? ==> dist(user.value, f.value) <= RadiusKm)
    ensures r != [] ==> (&& r[0].shop == s && r[0].lat == f.value.lat && r[0].lon == f.value.lon
      && r[0].rank.None? && r[0].distance == (if user.Some? then Some(dist(user.value, f.value)) else None))
  {
    match f
    case None => []
    case Some(c) =>
      if user.None? then [Found(s, c)]
      else if dist(user.value, c) <= RadiusKm then [Found(s, c).(distance := Some(dist(user.value, c)))]
      else []
  }

  /** The pushes of the widening loop: `found[i]` is the lookup result for `cands[i]`. A
      result is pushed as it is without a user location, and with its distance when that
      is within the radius. */
  function Widen(p: seq<Entry>, cands: seq<Shop>, found: seq<Option<Coords>>,
                 user: Option<Coords>, dist: (Coords, Coords) -> real): (r: seq<Entry>)
    requires |found| == |cands|
    ensures |p| <= |r| <= |p| + |cands| && r[..|p|] == p
    ensures forall k :: |p| <= k < |r| ==> Pushed(r[k], cands, user, dist)
    decreases |cands|
  {
    if cands == [] then p
    else
      var n := |cands| - 1;
      Widen(p, cands[..n], found[..n], user, dist) + Pick(cands[n], found[n], user, dist)
  }

  /** The same pushes written front to back: each candidate's `Pick`, in candidate order. */
  function Hits(cands: seq<Shop>, found: seq<Option<Coords>>, user: Option<Coords>,
                dist: (Coords, Coords) -> real): (r: seq<Entry>)
    requires |found| == |cands|
    ensures |r| <= |cands|
  {
    if cands == [] then []
    else Pick(cands[0], found[0], user, dist) + Hits(cands[1..], found[1..], user, dist)
  }

  /** The addresses looked up on demand: none unless fewer than five shops were placed. */
  function WideningQueries(shops: seq<Shop>, user: Option<Coords>, dist: (Coords, Coords) -> real): seq<string>
  {
    if |InitialView(shops, user, dist)| < SparseBelow then Addresses(WideningCandidates(shops)) else []
  }

  /** What `loadCoordinates` hands to `setGeocodedShops`, given the answers of the on-demand lookups. */
  function LoadResult(shops: seq<Shop>, user: Option<Coords>, dist: (Coords, Coords) -> real,
                      found: seq<Option<Coords>>): (r: seq<Entry>)
    requires |found| == |WideningQueries(shops, user, dist)|
    ensures var p := InitialView(shops, user, dist);
      |p| <= |r| <= |p| + WidenLimit && (|p| >= SparseBelow ==> r == p)
  {
    var p := InitialView(shops, user, dist);
    if |p| >= SparseBelow then p
    else
      var w := Widen(p, WideningCandidates(shops), found, user, dist);
      if user.Some? then AssignRanks(ByScore(w)) else w
  }

  lemma WidenStep(p: seq<Entry>, cands: seq<Shop>, found: seq<Option<Coords>>, i: nat,
                  c: Option<Coords>, user: Option<Coords>, dist: (Coords, Coords) -> real)
    requires |found| == i < |cands|
    ensures Widen(p, cands[..i + 1], found + [c], user, dist)
      == Widen(p, cands[..i], found, user, dist) + Pick(cands[i], c, user, dist)
  {
    assert cands[..i + 1][..i] == cands[..i];
    assert (found + [c])[..i] == found;
  }

  /** The `for (const shop of shopsToGeocode)` loop: look each candidate up and push what
      qualifies onto `processedShops`. */
  method WidenByLookups(p: seq<Entry>, shopsToGeocode: seq<Shop>, user: Option<Coords>,
                        dist: (Coords, Coords) -> real, client: Geocoding.GeocodingClient)
    returns (processedShops: seq<Entry>, ghost found: seq<Option<Coords>>)
    modifies client
    ensures var s := Geocoding.LookupAll(client.inBrowser, old(client.cache), client.nominatim,
                                         Addresses(shopsToGeocode));
      && found == s.results && client.cache == s.cache
      && client.requests == old(client.requests) + s.requests
    ensures |found| == |shopsToGeocode|
    ensures processedShops == Widen(p, shopsToGeocode, found, user, dist)
  {
    processedShops := p;
    found := [];
    ghost var queries := Addresses(shopsToGeocode);
    ghost var cache0, requests0 := client.cache, client.requests;
    for i := 0 to |shopsToGeocode|
      invariant |found| == i
      invariant processedShops == Widen(p, shopsToGeocode[..i], found, user, dist)
      invariant var s := Geocoding.LookupAll(client.inBrowser, cache0, client.nominatim, queries[..i]);
        found == s.results && client.cache == s.cache && client.requests == requests0 + s.requests
    {
      var shop := shopsToGeocode[i];
      var address := Address(shop);
      assert address == queries[i];
      ghost var sent := Geocoding.LookupAll(client.inBrowser, cache0, client.nominatim, queries[..i]).requests;
      ghost var o := Geocoding.CachedLookup(client.inBrowser, client.cache, client.nominatim, address);
      var coords := client.GeocodeAddress(address);
      Geocoding.LookupAllStep(client.inBrowser, cache0, client.nominatim, queries, i);
      AppendAssoc(requests0, sent, if o.requested then [address] else []);
      WidenStep(p, shopsToGeocode, found, i, coords, user, dist);
      found := found + [coords];
      ghost var pick := Pick(shop, coords, user, dist);
      if coords.Some? {
        var newShop := Found(shop, coords.value);
        if user.Some? {
          var d := dist(user.value, coords.value);
          if d <= RadiusKm {
            newShop := newShop.(distance := Some(d));
            assert pick == [newShop];
            processedShops := processedShops + [newShop];
          } else {
            assert pick == [];
          }
        } else {
          assert pick == [newShop];
          processedShops := processedShops + [newShop];
        }
      } else {
        assert pick == [];
      }
    }
    WholeSlice(queries);
    WholeSlice(shopsToGeocode);
  }

  /** `loadCoordinates`, with the map's geocoding client. `found` records what the
      on-demand lookups answered. */
  method LoadCoordinates(shops: seq<Shop>, user: Option<Coords>, dist: (Coords, Coords) -> real,
                         client: Geocoding.GeocodingClient)
    returns (processedShops: seq<Entry>, ghost found: seq<Option<Coords>>)
    modifies client
    ensures var s := Geocoding.LookupAll(client.inBrowser, old(client.cache), client.nominatim,
                                         WideningQueries(shops, user, dist));
      && found == s.results && client.cache == s.cache
      && client.requests == old(client.requests) + s.requests
    ensures |found| == |WideningQueries(shops, user, dist)|
    ensures processedShops == LoadResult(shops, user, dist, found)
  {
    var results := PreGeocoded(shops);
    processedShops := results;
    if user.Some? {
      processedShops := WithDistances(results, user.value, dist);
      processedShops := WithinRadius(processedShops);
      processedShops := ByScore(processedShops);
      processedShops := AssignRanks(processedShops);
    }
    assert processedShops == InitialView(shops, user, dist);
    found := [];
    if |processedShops| < SparseBelow {
      processedShops, found := WidenByLookups(processedShops, WideningCandidates(shops), user, dist, client);
      ghost var w := processedShops;
      if user.Some? {
        processedShops := ByScore(processedShops);
        processedShops := AssignRanks(processedShops);
      }
      assert processedShops == (if user.Some? then AssignRanks(ByScore(w)) else w);
    }
  }

  /** `topShops`: the badged entries, in ascending badge order (`BadgeKey` is the
      negated badge, so non-increasing keys are ascending badges). */
  function TopShops(es: seq<Entry>): (r: seq<Entry>)
    ensures multiset(r) == multiset(Badged(es))
    ensures forall e :: e in r <==> e in es && e.rank.Some?
    ensures NonIncreasing(r, BadgeKey)
  {
    SortOrders(Badged(es), BadgeKey);
    var r := Sort(Badged(es), BadgeKey);
    assert forall e :: e in r <==> e in multiset(Badged(es));
    r
  }

  /** `filter(s => s.rankDistance !== undefined)`. */
  function Badged(es: seq<Entry>): (r: seq<Entry>)
    ensures |r| <= |es|
    ensures forall e :: e in r <==> e in es && e.rank.Some?
  {
    if es == [] then []
    else (if es[0].rank.Some? then [es[0]] else []) + Badged(es[1..])
  }

  /** The comparator `(a.rankDistance || 0) - (b.rankDistance || 0)` as a descending key. */
  function BadgeKey(e: Entry): real
  {
    if e.rank.Some? then -(e.rank.value as real) else 0.0
  }

  /** The badges of a ranked list: the first ten entries carry ranks 1 to 10, the rest none. */
  predicate BadgesInOrder(v: seq<Entry>)
  {
    forall i :: 0 <= i < |v| ==> v[i].rank == (if i < TopN then Some(i + 1) else None)
  }

  /** What the map shows with a user location: best score first, the first ten badged. */
  predicate Ranked(v: seq<Entry>)
  {
    NonIncreasing(v, Score) && BadgesInOrder(v)
  }

  /** Every entry lies within the radius, at its own distance from the user. */
  predicate AllNear(v: seq<Entry>, u: Coords, dist: (Coords, Coords) -> real)
  {
    forall e :: e in v ==> e.distance == Some(dist(u, Coords(e.lat, e.lon))) && e.distance.value <= RadiusKm
  }

  /** Ranking sorts by score and badges the first ten, leaving every entry's score as it was. */
  lemma RankingOrders(es: seq<Entry>)
    ensures Ranked(AssignRanks(ByScore(es)))
    ensures multiset(ByScore(es)) == multiset(es)
    ensures forall v :: WithKey(ByScore(es), Score, v) == WithKey(es, Score, v)
  {
    SortOrders(es, Score);
    forall v ensures WithKey(ByScore(es), Score, v) == WithKey(es, Score, v) {
      SortIsStable(es, Score, v);
    }
    var r := AssignRanks(ByScore(es));
    assert forall i :: 0 <= i < |r| ==> Score(r[i]) == Score(ByScore(es)[i]);
  }

  /** `e` is a listed shop with both coordinates, shown at those coordinates. */
  predicate AtOwnSpot(e: Entry, shops: seq<Shop>)
  {
    e.shop in shops && IsPreGeocoded(e.shop) && e.lat == e.shop.lat.value && e.lon == e.shop.lon.value
  }

  lemma DistancesKeepSpots(es: seq<Entry>, u: Coords, dist: (Coords, Coords) -> real, shops: seq<Shop>)
    requires forall e :: e in es ==> AtOwnSpot(e, shops)
    ensures forall e :: e in WithDistances(es, u, dist) ==> AtOwnSpot(e, shops)
  {
    var d := WithDistances(es, u, dist);
    forall e | e in d ensures AtOwnSpot(e, shops) {
      var i :| 0 <= i < |d| && d[i] == e;
      assert es[i] in es;
    }
  }

  lemma RankingKeepsSpots(es: seq<Entry>, shops: seq<Shop>)
    requires forall e :: e in es ==> AtOwnSpot(e, shops)
    ensures forall e :: e in AssignRanks(ByScore(es)) ==> AtOwnSpot(e, shops)
  {
    var b := ByScore(es);
    forall e | e in AssignRanks(b) ensures AtOwnSpot(e, shops) {
      var i :| 0 <= i < |b| && AssignRanks(b)[i] == e;
      assert b[i] in multiset(es);
      assert e.(rank := b[i].rank) == b[i];
      assert b[i] in es;
      assert AtOwnSpot(b[i], shops);
      assert e.shop == b[i].shop && e.lat == b[i].lat && e.lon == b[i].lon;
    }
  }

  /** The entries placed before any lookup are the listed shops that have both coordinates,
      at those coordinates. */
  lemma InitialViewPlaced(shops: seq<Shop>, user: Option<Coords>, dist: (Coords, Coords) -> real)
    ensures forall e :: e in InitialView(shops, user, dist) ==> AtOwnSpot(e, shops)
  {
    var pre := PreGeocoded(shops);
    assert forall e :: e in pre ==> AtOwnSpot(e, shops);
    if user.Some? {
      var d := WithDistances(pre, user.value, dist);
      DistancesKeepSpots(pre, user.value, dist, shops);
      RankingKeepsSpots(WithinRadius(d), shops);
    }
  }

  /** A shop with only one of its two coordinates is never shown and never looked up. */
  lemma HalfLocatedIgnored(shops: seq<Shop>, user: Option<Coords>, dist: (Coords, Coords) -> real, s: Shop)
    requires Truthy(s.lat) != Truthy(s.lon)
    ensures forall e :: e in InitialView(shops, user, dist) ==> e.shop != s
    ensures s !in WideningCandidates(shops)
  {
    InitialViewPlaced(shops, user, dist);
    WideningCandidatesUnlocated(shops);
  }

  /** Every entry of `WithDistances` carries its own distance from the user. */
  lemma WithDistancesMeasured(es: seq<Entry>, u: Coords, dist: (Coords, Coords) -> real)
    ensures forall e :: e in WithDistances(es, u, dist) ==> e.distance == Some(dist(u, Coords(e.lat, e.lon)))
  {
    var d := WithDistances(es, u, dist);
    forall e | e in d ensures e.distance == Some(dist(u, Coords(e.lat, e.lon))) {
      var i :| 0 <= i < |d| && d[i] == e;
    }
  }

  /** Ranking neither adds entries nor changes their coordinates or distances. */
  lemma RankingKeepsNear(es: seq<Entry>, u: Coords, dist: (Coords, Coords) -> real)
    requires AllNear(es, u, dist)
    ensures AllNear(AssignRanks(ByScore(es)), u, dist)
  {
    var b := ByScore(es);
    forall e | e in AssignRanks(b)
      ensures e.distance == Some(dist(u, Coords(e.lat, e.lon))) && e.distance.value <= RadiusKm
    {
      var i :| 0 <= i < |b| && AssignRanks(b)[i] == e;
      assert b[i] in multiset(es);
    }
  }

  /** With a user location, the first list is ranked and holds only pre-geocoded shops
      within the radius, each at its distance. */
  lemma LocatedView(shops: seq<Shop>, u: Coords, dist: (Coords, Coords) -> real)
    ensures Ranked(InitialView(shops, Some(u), dist))
    ensures AllNear(InitialView(shops, Some(u), dist), u, dist)
  {
    var d := WithDistances(PreGeocoded(shops), u, dist);
    WithDistancesMeasured(PreGeocoded(shops), u, dist);
    var w := WithinRadius(d);
    RankingOrders(w);
    RankingKeepsNear(w, u, dist);
  }

  /** No pre-geocoded shop within the radius is dropped from the first list. */
  lemma NearShopKept(shops: seq<Shop>, u: Coords, dist: (Coords, Coords) -> real, s: Shop)
    requires s in shops && IsPreGeocoded(s) && dist(u, Coords(s.lat.value, s.lon.value)) <= RadiusKm
    ensures exists e :: e in InitialView(shops, Some(u), dist) && e.shop == s
  {
    var pre := PreGeocoded(shops);
    var d := WithDistances(pre, u, dist);
    var i :| 0 <= i < |pre| && pre[i] == Placed(s);
    assert d[i] in d;
    var w := WithinRadius(d);
    var b := ByScore(w);
    assert d[i] in multiset(b);
    var k :| 0 <= k < |b| && b[k] == d[i];
    assert AssignRanks(b)[k] in AssignRanks(b);
  }

  /** The widening looks up at most five shops, none with a coordinate, the highest-rated first. */
  lemma WideningCandidatesUnlocated(shops: seq<Shop>)
    ensures |WideningCandidates(shops)| <= WidenLimit
    ensures forall s :: s in WideningCandidates(shops) ==> s in shops && IsUnlocated(s)
    ensures NonIncreasing(WideningCandidates(shops), RatingOf)
  {
    var sorted := Sort(Unlocated(shops), RatingOf);
    SortOrders(Unlocated(shops), RatingOf);
    var c := WideningCandidates(shops);
    forall s | s in c ensures s in shops && IsUnlocated(s) {
      assert s in multiset(sorted);
    }
    assert forall i, j :: 0 <= i < j < |c| ==> c[i] == sorted[i] && c[j] == sorted[j];
  }

  /** The unlocated shops the widening passes over. */
  function PassedOver(shops: seq<Shop>): seq<Shop>
  {
    Sort(Unlocated(shops), RatingOf)[|WideningCandidates(shops)|..]
  }

  /** The chosen shops and the passed-over ones are the unlocated shops between them, and
      no shop passed over is rated above one that was chosen. */
  lemma WideningChoosesTopRated(shops: seq<Shop>)
    ensures multiset(WideningCandidates(shops)) + multiset(PassedOver(shops)) == multiset(Unlocated(shops))
    ensures forall x, y :: x in WideningCandidates(shops) && y in PassedOver(shops) ==> RatingOf(x) >= RatingOf(y)
  {
    var sorted := Sort(Unlocated(shops), RatingOf);
    SortOrders(Unlocated(shops), RatingOf);
    var c := WideningCandidates(shops);
    assert sorted == c + PassedOver(shops);
    PrefixDominates(sorted, RatingOf, |c|);
  }

  /** Fewer than five placed shops trigger at most five lookups; five or more trigger none. */
  lemma AtMostFiveLookups(shops: seq<Shop>, user: Option<Coords>, dist: (Coords, Coords) -> real,
                          inBrowser: bool, cache: map<string, Coords>, nominatim: string -> Option<Coords>)
    ensures var q := WideningQueries(shops, user, dist);
      |Geocoding.LookupAll(inBrowser, cache, nominatim, q).requests| <= WidenLimit
    ensures |InitialView(shops, user, dist)| >= SparseBelow ==> WideningQueries(shops, user, dist) == []
  {
    WideningCandidatesUnlocated(shops);
  }

  /** Without a user location the list is the pre-geocoded shops in their listed order,
      followed by whatever the lookups found; nothing is badged or measured. */
  lemma UnlocatedResult(shops: seq<Shop>, dist: (Coords, Coords) -> real, found: seq<Option<Coords>>)
    requires |found| == |WideningQueries(shops, None, dist)|
    ensures var r := LoadResult(shops, None, dist, found);
      && |PreGeocoded(shops)| <= |r| <= |PreGeocoded(shops)| + WidenLimit
      && r[..|PreGeocoded(shops)|] == PreGeocoded(shops)
      && forall e :: e in r ==> e.rank.None? && e.distance.None?
  {
    WideningCandidatesUnlocated(shops);
    var p := PreGeocoded(shops);
    var r := LoadResult(shops, None, dist, found);
    if |p| < SparseBelow {
      forall e | e in r ensures e.rank.None? && e.distance.None? {
        var k :| 0 <= k < |r| && r[k] == e;
        if k < |p| {
          assert r[k] == r[..|p|][k];
        }
      }
    }
  }

  /** With a user location the final list, widened or not, is ranked by score and holds
      only entries within the radius. */
  lemma LocatedResult(shops: seq<Shop>, u: Coords, dist: (Coords, Coords) -> real, found: seq<Option<Coords>>)
    requires |found| == |WideningQueries(shops, Some(u), dist)|
    ensures Ranked(LoadResult(shops, Some(u), dist, found))
    ensures AllNear(LoadResult(shops, Some(u), dist, found), u, dist)
  {
    LocatedView(shops, u, dist);
    var p := InitialView(shops, Some(u), dist);
    if |p| < SparseBelow {
      var w := Widen(p, WideningCandidates(shops), found, Some(u), dist);
      assert AllNear(w, u, dist) by {
        forall e | e in w ensures e.distance == Some(dist(u, Coords(e.lat, e.lon))) && e.distance.value <= RadiusKm {
          var k :| 0 <= k < |w| && w[k] == e;
          if k < |p| {
            assert w[k] == w[..|p|][k];
            assert p[k] in p;
          }
        }
      }
      RankingOrders(w);
      RankingKeepsNear(w, u, dist);
    }
  }

  lemma {:induction false} HitsAppend(a: seq<Shop>, fa: seq<Option<Coords>>, b: seq<Shop>, fb: seq<Option<Coords>>,
                                      user: Option<Coords>, dist: (Coords, Coords) -> real)
    requires |fa| == |a| && |fb| == |b|
    ensures Hits(a + b, fa + fb, user, dist) == Hits(a, fa, user, dist) + Hits(b, fb, user, dist)
    decreases |a|
  {
    if a == [] {
      assert a + b == b && fa + fb == fb;
    } else {
      assert (a + b)[0] == a[0] && (a + b)[1..] == a[1..] + b;
      assert (fa + fb)[0] == fa[0] && (fa + fb)[1..] == fa[1..] + fb;
      HitsAppend(a[1..], fa[1..], b, fb, user, dist);
      AppendAssoc(Pick(a[0], fa[0], user, dist), Hits(a[1..], fa[1..], user, dist), Hits(b, fb, user, dist));
    }
  }

  /** The widening appends to the first list exactly each candidate's `Pick`, in candidate order. */
  lemma {:induction false} WidenIsHits(p: seq<Entry>, cands: seq<Shop>, found: seq<Option<Coords>>,
                                       user: Option<Coords>, dist: (Coords, Coords) -> real)
    requires |found| == |cands|
    ensures Widen(p, cands, found, user, dist) == p + Hits(cands, found, user, dist)
    decreases |cands|
  {
    if cands != [] {
      var n := |cands| - 1;
      WidenIsHits(p, cands[..n], found[..n], user, dist);
      assert cands[..n] + [cands[n]] == cands && found[..n] + [found[n]] == found;
      HitsAppend(cands[..n], found[..n], [cands[n]], [found[n]], user, dist);
      assert Hits([cands[n]], [found[n]], user, dist) == Pick(cands[n], found[n], user, dist);
      AppendAssoc(p, Hits(cands[..n], found[..n], user, dist), Pick(cands[n], found[n], user, dist));
    }
  }

  lemma HitsSplit(cands: seq<Shop>, found: seq<Option<Coords>>, k: nat, user: Option<Coords>,
                  dist: (Coords, Coords) -> real)
    requires |found| == |cands| && k < |cands|
    ensures Hits(cands, found, user, dist)
      == Hits(cands[..k], found[..k], user, dist) + Pick(cands[k], found[k], user, dist)
         + Hits(cands[k + 1..], found[k + 1..], user, dist)
  {
    assert cands == cands[..k] + cands[k..] && found == found[..k] + found[k..];
    HitsAppend(cands[..k], found[..k], cands[k..], found[k..], user, dist);
    assert cands[k..][1..] == cands[k + 1..] && found[k..][1..] == found[k + 1..];
    AppendAssoc(Hits(cands[..k], found[..k], user, dist), Pick(cands[k], found[k], user, dist),
                Hits(cands[k + 1..], found[k + 1..], user, dist));
  }

  /** Every lookup that found the shop (within the radius, when there is a user location)
      appends that shop at the coordinates found, after the hits of the earlier candidates. */
  lemma WidenKeepsEveryHit(p: seq<Entry>, cands: seq<Shop>, found: seq<Option<Coords>>,
                           user: Option<Coords>, dist: (Coords, Coords) -> real, k: nat)
    requires |found| == |cands| && k < |cands|
    requires found[k].Some? && (user.Some? ==> dist(user.value, found[k].value) <= RadiusKm)
    ensures var w := Widen(p, cands, found, user, dist);
      var at := |p| + |Hits(cands[..k], found[..k], user, dist)|;
      at < |w| && w[at].shop == cands[k] && Coords(w[at].lat, w[at].lon) == found[k].value
  {
    WidenIsHits(p, cands, found, user, dist);
    HitsSplit(cands, found, k, user, dist);
  }

  /** Hits are appended in candidate order: a hit for an earlier candidate lands before
      the position of any later candidate's hit. */
  lemma WidenHitsInOrder(cands: seq<Shop>, found: seq<Option<Coords>>, user: Option<Coords>,
                         dist: (Coords, Coords) -> real, j: nat, k: nat)
    requires |found| == |cands| && j < k <= |cands|
    requires found[j].Some? && (user.Some? ==> dist(user.value, found[j].value) <= RadiusKm)
    ensures |Hits(cands[..j], found[..j], user, dist)| < |Hits(cands[..k], found[..k], user, dist)|
  {
    HitsSplit(cands[..k], found[..k], j, user, dist);
    assert cands[..k][..j] == cands[..j] && found[..k][..j] == found[..j];
  }

  /** The badged entries of a list badged in order are its first ten (or all of it). */
  lemma {:induction false} BadgedPrefix(v: seq<Entry>, m: nat)
    requires m <= |v| && forall i :: 0 <= i < |v| ==> (v[i].rank.Some? <==> i < m)
    ensures Badged(v) == v[..m]
    decreases |v|
  {
    if v != [] {
      BadgedPrefix(v[1..], if m == 0 then 0 else m - 1);
      if m > 0 {
        assert v[..m] == [v[0]] + v[1..][..m - 1];
      }
    }
  }

  /** `topShops` of a ranked list is its ten best entries, best first. */
  lemma TopShopsOfRanked(v: seq<Entry>)
    requires BadgesInOrder(v)
    ensures var m := if |v| < TopN then |v| else TopN;
      TopShops(v) == v[..m]
  {
    var m := if |v| < TopN then |v| else TopN;
    BadgedPrefix(v, m);
    var b := v[..m];
    assert forall i :: 0 <= i < |b| ==> BadgeKey(b[i]) == -((i + 1) as real);
    SortSorted(b, BadgeKey);
  }
}
