/** `main` of scripts/geocode_shops.js: the build-time batch that geocodes the first hundred
    listed shops of the spreadsheet into a JSON cache keyed by shop name and suburb. Each
    shop not yet cached tries its Google Maps link first and then up to four Nominatim
    queries, most specific first; the cache is written every fifth new find and at the end. */
module BatchGeocoder {
  import opened Common
  import opened Text
  import opened ShopNames
  import opened GoogleLink

  /** A parsed spreadsheet row: the columns the script reads. */
  datatype Row = Row(shopName: string, suburb: string, postcode: string, google: string)

  /** The marker of the sheet's closing notice row. */
  const Disclaimer: string := "THE KEBABALOGUE WILL NOT BE UPDATED"
  /** How many listed shops one run processes. */
  const BatchSize: nat := 100
  /** The cache is written after every this many new finds. */
  const SaveEvery: nat := 5

  /** The row filter: a shop name that is not blank and is not the closing notice. */
  predicate IsListedShop(row: Row)
  {
    Trim(row.shopName) != "" && !Contains(row.shopName, Disclaimer)
  }

  /** `results.data.filter(...)`: the listed rows, in sheet order. */
  function ListedShops(rows: seq<Row>): (r: seq<Row>)
    ensures |r| <= |rows|
    ensures forall row :: row in r <==> row in rows && IsListedShop(row)
  {
    if rows == [] then []
    else (if IsListedShop(rows[0]) then [rows[0]] else []) + ListedShops(rows[1..])
  }

  /** Filtering a sheet is filtering each of its parts: the filter keeps the sheet's order. */
  lemma {:induction false} ListedShopsAppend(a: seq<Row>, b: seq<Row>)
    ensures ListedShops(a + b) == ListedShops(a) + ListedShops(b)
    decreases |a|
  {
    if a == [] {
      assert a + b == b;
    } else {
      assert (a + b)[1..] == a[1..] + b;
      ListedShopsAppend(a[1..], b);
      AppendAssoc(if IsListedShop(a[0]) then [a[0]] else [], ListedShops(a[1..]), ListedShops(b));
    }
  }

  /** `shops.slice(0, 100)`. */
  function ShopsToProcess(rows: seq<Row>): (r: seq<Row>)
  {
    Take(ListedShops(rows), BatchSize)
  }

  /** At most a hundred shops, all of them listed, and they are the first listed shops. */
  lemma ShopsToProcessAreFirstListed(rows: seq<Row>)
    ensures var r := ShopsToProcess(rows);
      |r| <= BatchSize && r == ListedShops(rows)[..|r|]
      && (forall row :: row in r ==> row in rows && IsListedShop(row))
      && (|ListedShops(rows)| <= BatchSize ==> r == ListedShops(rows))
  {
    var l := ListedShops(rows);
    var r := Take(l, BatchSize);
    assert r == l[..|r|];
    forall row | row in r ensures row in l {
      var k :| 0 <= k < |r| && r[k] == row;
      assert l[k] == row;
    }
    if |l| <= BatchSize {
      WholeSlice(l);
    }
  }

  /** The cache key of a row: `${shop['Shop Name']}-${shop['Suburb']}`. */
  function CacheKey(row: Row): (k: string)
    ensures |k| == |row.shopName| + 1 + |row.suburb|
    ensures k[..|row.shopName|] == row.shopName && k[|row.shopName|] == '-'
    ensures k[|row.shopName| + 1..] == row.suburb
  {
    row.shopName + "-" + row.suburb
  }

  /** Strategy 2: the cleaned search name with suburb and postcode. */
  function FullQuery(row: Row, cleanName: string): string
  {
    cleanName + ", " + row.suburb + " " + row.postcode + ", Australia"
  }

  /** Strategy 3: the cleaned search name with the suburb only. */
  function SuburbQuery(row: Row, cleanName: string): string
  {
    cleanName + ", " + row.suburb + ", Australia"
  }

  /** Strategy 4: the canonical name as it came, uncleaned. */
  function NameQuery(searchName: string): string
  {
    searchName + ", Australia"
  }

  /** Strategy 5: the centre of the suburb. */
  function CentreQuery(row: Row): string
  {
    row.suburb + ", Australia"
  }

  /** The Nominatim queries strategies 2 to 5 would send, in order, if every one failed:
      the name-only query only when the link renamed the shop, the suburb centre only
      when the row has a suburb. `cleanName` is `cleanShopName(searchName)`. */
  function Fallbacks(row: Row, searchName: string, cleanName: string): (qs: seq<string>)
    ensures |qs| == 2 + (if searchName != row.shopName then 1 else 0) + (if row.suburb != "" then 1 else 0)
    ensures qs[0] == FullQuery(row, cleanName) && qs[1] == SuburbQuery(row, cleanName)
    ensures searchName != row.shopName ==> qs[2] == NameQuery(searchName)
    ensures row.suburb != "" ==> qs[|qs| - 1] == CentreQuery(row)
  {
    var centre := if row.suburb != "" then [CentreQuery(row)] else [];
    [FullQuery(row, cleanName)]
    + ([SuburbQuery(row, cleanName)]
       + (if searchName != row.shopName then [NameQuery(searchName)] + centre else centre))
  }

  /** The result of trying queries in turn and the queries sent. */
  datatype Attempt = Attempt(coords: Option<Coords>, asked: seq<string>)

  /** Sends the queries of `qs` in order until one finds coordinates. `nominatim` is the
      script's `geocodeAddress`: the first result of a search, `None` for an empty list or
      an error. */
  function FirstHit(qs: seq<string>, nominatim: string -> Option<Coords>): (r: Attempt)
    ensures |r.asked| <= |qs| && (r.asked == [] <==> qs == [])
    ensures r.coords.Some? ==> r.asked != [] && r.coords == nominatim(r.asked[|r.asked| - 1])
  {
    if qs == [] then Attempt(None, [])
    else if nominatim(qs[0]).Some? then Attempt(nominatim(qs[0]), [qs[0]])
    else
      var rest := FirstHit(qs[1..], nominatim);
      Attempt(rest.coords, [qs[0]] + rest.asked)
  }

  /** The queries sent are a prefix of `qs`, all but the last of them found nothing, and
      the result is the last one's answer, found exactly when some query of `qs` finds
      something; when nothing is found every query was sent. */
  lemma {:induction false} FirstHitIsFirst(qs: seq<string>, nominatim: string -> Option<Coords>)
    ensures var r := FirstHit(qs, nominatim);
      r.asked <= qs
      && (forall k :: 0 <= k < |r.asked| - 1 ==> nominatim(r.asked[k]).None?)
      && (r.coords.Some? <==> exists q :: q in qs && nominatim(q).Some?)
      && (r.coords.Some? ==> r.asked != [] && r.coords == nominatim(r.asked[|r.asked| - 1]))
      && (r.coords.None? ==> r.asked == qs && forall k :: 0 <= k < |qs| ==> nominatim(qs[k]).None?)
  {
    if qs != [] && nominatim(qs[0]).None? {
      FirstHitIsFirst(qs[1..], nominatim);
      var rest := FirstHit(qs[1..], nominatim);
      var r := FirstHit(qs, nominatim);
      assert r.asked == [qs[0]] + rest.asked;
      assert forall q :: q in qs ==> q == qs[0] || q in qs[1..];
      assert qs == [qs[0]] + qs[1..];
      assert forall k :: 0 < k < |r.asked| ==> r.asked[k] == rest.asked[k - 1];
    }
  }

  /** When nothing is found, the last query sent is the last one of `qs`, and it failed. */
  lemma FirstHitMissEndsAt(qs: seq<string>, nominatim: string -> Option<Coords>)
    requires qs != [] && FirstHit(qs, nominatim).coords.None?
    ensures var asked := FirstHit(qs, nominatim).asked;
      asked != [] && asked[|asked| - 1] == qs[|qs| - 1] && nominatim(qs[|qs| - 1]).None?
  {
    FirstHitIsFirst(qs, nominatim);
  }

  /** Trying `q` and then `qs`. */
  lemma FirstHitCons(q: string, qs: seq<string>, nominatim: string -> Option<Coords>)
    ensures FirstHit([q] + qs, nominatim)
      == if nominatim(q).Some? then Attempt(nominatim(q), [q])
         else Attempt(FirstHit(qs, nominatim).coords, [q] + FirstHit(qs, nominatim).asked)
  {
    assert ([q] + qs)[1..] == qs;
  }

  /** Trying `q` alone. */
  lemma FirstHitSingle(q: string, nominatim: string -> Option<Coords>)
    ensures FirstHit([q], nominatim) == Attempt(nominatim(q), [q])
  {
    assert [q][1..] == [];
  }

  /** The name the strategies search for: the link's canonical name when it gave a
      non-empty one, otherwise the sheet's name. */
  function SearchName(row: Row, info: Option<LinkInfo>): string
  {
    if info.Some? && info.value.name.Some? && info.value.name.value != "" then info.value.name.value
    else row.shopName
  }

  /** What locating one uncached shop does: its coordinates, the links it fetched and the
      Nominatim queries it sent. */
  datatype ShopAttempt = ShopAttempt(coords: Option<Coords>, fetches: seq<string>, queries: seq<string>)

  /** Strategies 1 to 5 for one shop. */
  function LocateShop(row: Row, web: Web, nominatim: string -> Option<Coords>): (r: ShopAttempt)
    ensures r.fetches == (if IsFetchable(row.google) then [row.google] else [])
    ensures r.queries == [] ==> r.coords.Some?
  {
    var info := if row.google != "" then ResolveGoogleInfo(row.google, web) else None;
    var fetches := if row.google != "" then FetchesFor(row.google) else [];
    var linked := if info.Some? then info.value.coords else None;
    if linked.Some? then ShopAttempt(linked, fetches, [])
    else
      var name := SearchName(row, info);
      var h := FirstHit(Fallbacks(row, name, CleanShopName(name)), nominatim);
      ShopAttempt(h.coords, fetches, h.asked)
  }

  /** One link fetch at most, and at most four queries. */
  lemma LocateShopBounded(row: Row, web: Web, nominatim: string -> Option<Coords>)
    ensures var a := LocateShop(row, web, nominatim);
      |a.fetches| <= 1 && |a.queries| <= 4
  {
    var info := if row.google != "" then ResolveGoogleInfo(row.google, web) else None;
    var name := SearchName(row, info);
    FirstHitIsFirst(Fallbacks(row, name, CleanShopName(name)), nominatim);
  }

  /** Coordinates found in the link's final URL are taken as they are: no Nominatim query. */
  lemma LinkCoordsNeedNoQuery(row: Row, web: Web, nominatim: string -> Option<Coords>)
    requires IsFetchable(row.google) && web.follow(row.google).Some?
    requires ScanCoords(web.follow(row.google).value).Some?
    ensures var a := LocateShop(row, web, nominatim);
      a.coords == ScanCoords(web.follow(row.google).value) && a.queries == [] && a.fetches == [row.google]
  {
  }

  /** Without coordinates from the link, the queries go out in strategy order, each one only
      after all earlier ones found nothing, and the shop is found exactly when one of the
      strategies' queries finds it. */
  lemma QueriesInStrategyOrder(row: Row, web: Web, nominatim: string -> Option<Coords>)
    requires var info := if row.google != "" then ResolveGoogleInfo(row.google, web) else None;
      info.None? || info.value.coords.None?
    ensures var info := if row.google != "" then ResolveGoogleInfo(row.google, web) else None;
      var name := SearchName(row, info);
      var qs := Fallbacks(row, name, CleanShopName(name));
      var a := LocateShop(row, web, nominatim);
      a.queries != [] && a.queries[0] == FullQuery(row, CleanShopName(name))
      && a.queries <= qs
      && (forall k :: 0 <= k < |a.queries| - 1 ==> nominatim(a.queries[k]).None?)
      && (a.coords.Some? <==> exists q :: q in qs && nominatim(q).Some?)
  {
    var info := if row.google != "" then ResolveGoogleInfo(row.google, web) else None;
    var name := SearchName(row, info);
    var qs := Fallbacks(row, name, CleanShopName(name));
    FirstHitIsFirst(qs, nominatim);
    FirstHitCons(qs[0], qs[1..], nominatim);
  }

  /** A shop that is not found went through the strategies' queries without a hit, and
      those are the queries it sent. */
  lemma NotFoundFallsBack(row: Row, web: Web, nominatim: string -> Option<Coords>)
    requires LocateShop(row, web, nominatim).coords.None?
    ensures var info := if row.google != "" then ResolveGoogleInfo(row.google, web) else None;
      var name := SearchName(row, info);
      var h := FirstHit(Fallbacks(row, name, CleanShopName(name)), nominatim);
      h.coords.None? && LocateShop(row, web, nominatim).queries == h.asked
  {
    var info := if row.google != "" then ResolveGoogleInfo(row.google, web) else None;
    assert info.None? || info.value.coords.None?;
  }

  /** A shop with a suburb that is not found has had its suburb centre asked for last. */
  lemma SuburbCentreIsLastResort(row: Row, web: Web, nominatim: string -> Option<Coords>)
    requires row.suburb != ""
    requires LocateShop(row, web, nominatim).coords.None?
    ensures var a := LocateShop(row, web, nominatim);
      a.queries != [] && a.queries[|a.queries| - 1] == CentreQuery(row) && nominatim(CentreQuery(row)).None?
  {
    var info := if row.google != "" then ResolveGoogleInfo(row.google, web) else None;
    var name := SearchName(row, info);
    var qs := Fallbacks(row, name, CleanShopName(name));
    NotFoundFallsBack(row, web, nominatim);
    FirstHitMissEndsAt(qs, nominatim);
  }

  /** Without a fetchable link the search name is the sheet's own, so the name-only query is
      never sent: the queries are a prefix of the at most three strategies for that name. */
  lemma WithoutLinkSheetNameOnly(row: Row, web: Web, nominatim: string -> Option<Coords>)
    requires !IsFetchable(row.google)
    ensures var a := LocateShop(row, web, nominatim);
      var qs := Fallbacks(row, row.shopName, CleanShopName(row.shopName));
      a.fetches == [] && a.queries <= qs && |qs| <= 3
  {
    var info := if row.google != "" then ResolveGoogleInfo(row.google, web) else None;
    assert info.None? && SearchName(row, info) == row.shopName;
    var qs := Fallbacks(row, row.shopName, CleanShopName(row.shopName));
    assert LocateShop(row, web, nominatim) == ShopAttempt(FirstHit(qs, nominatim).coords, [], FirstHit(qs, nominatim).asked);
    FirstHitIsFirst(qs, nominatim);
  }

  /** The script's state: the cache (`geocodedData`), `newFoundCount`, the snapshots of the
      cache written to the output file, and the logs of link fetches and Nominatim queries. */
  datatype Run = Run(cache: map<string, Coords>, found: nat, saves: seq<map<string, Coords>>,
                     fetches: seq<string>, queries: seq<string>)

  /** The `if (coords)` block of the loop: a find is cached under `key` and counted, and
      the cache is written on every fifth find; a miss changes nothing. */
  function Tally(run: Run, key: string, coords: Option<Coords>): (r: Run)
    ensures coords.None? ==> r == run
    ensures coords.Some? ==> (
      && r.cache.Keys == run.cache.Keys + {key} && r.cache[key] == coords.value
      && (forall k :: k in run.cache && k != key ==> r.cache[k] == run.cache[k])
      && r.found == run.found + 1
      && r.saves == run.saves + (if r.found % SaveEvery == 0 then [r.cache] else []))
    ensures r.fetches == run.fetches && r.queries == run.queries
  {
    if coords.None? then run
    else
      var cache := run.cache[key := coords.value];
      var found := run.found + 1;
      run.(cache := cache, found := found,
           saves := run.saves + (if found % SaveEvery == 0 then [cache] else []))
  }

  /** The bookkeeping after locating an uncached shop: its requests are logged, then the
      result is tallied. */
  function Record(run: Run, key: string, a: ShopAttempt): (r: Run)
  {
    Tally(run.(fetches := run.fetches + a.fetches, queries := run.queries + a.queries), key, a.coords)
  }

  /** One pass of the loop: a shop whose key is cached is skipped, any other is located. */
  function Step(run: Run, row: Row, web: Web, nominatim: string -> Option<Coords>): (r: Run)
    ensures Extends(r.cache, run.cache) && r.cache.Keys <= run.cache.Keys + {CacheKey(row)}
    ensures r.found == run.found + (|r.cache| - |run.cache|)
  {
    if CacheKey(row) in run.cache then run
    else Record(run, CacheKey(row), LocateShop(row, web, nominatim))
  }

  /** The loop over `shops`, one after another. */
  function Process(run: Run, shops: seq<Row>, web: Web, nominatim: string -> Option<Coords>): (r: Run)
    ensures Extends(r.cache, run.cache)
    ensures r.found == run.found + (|r.cache| - |run.cache|)
    decreases |shops|
  {
    if shops == [] then run
    else
      var n := |shops| - 1;
      Step(Process(run, shops[..n], web, nominatim), shops[n], web, nominatim)
  }

  lemma ProcessStep(run: Run, shops: seq<Row>, i: nat, web: Web, nominatim: string -> Option<Coords>)
    requires i < |shops|
    ensures Process(run, shops[..i + 1], web, nominatim) == Step(Process(run, shops[..i], web, nominatim), shops[i], web, nominatim)
  {
    assert shops[..i + 1][..i] == shops[..i];
  }

  /** The final write after the loop. */
  function Finish(run: Run): (r: Run)
  {
    run.(saves := run.saves + [run.cache])
  }

  /** The cache as the script loads it: the output file's entries, or nothing when the file
      is missing or does not parse (`stored` is `None`). */
  function LoadedCache(stored: Option<map<string, Coords>>): map<string, Coords>
  {
    if stored.Some? then stored.value else map[]
  }

  /** A whole run over a sheet. */
  function RunBatch(rows: seq<Row>, stored: Option<map<string, Coords>>, web: Web,
                    nominatim: string -> Option<Coords>): Run
  {
    Finish(Process(Run(LoadedCache(stored), 0, [], [], []), ShopsToProcess(rows), web, nominatim))
  }

  /** Every entry of `small` is in `big` with the same value. */
  predicate Extends(big: map<string, Coords>, small: map<string, Coords>)
  {
    small.Keys <= big.Keys && forall k :: k in small ==> big[k] == small[k]
  }

  /** What a run keeps true from a start cache `start`: the cache only gains entries, the
      count is the number of entries gained, and the i-th write holds exactly the entries
      of `start` and the first 5(i + 1) finds, which are still in the cache. */
  ghost predicate Consistent(run: Run, start: map<string, Coords>)
  {
    Extends(run.cache, start)
    && run.found == |run.cache| - |start|
    && |run.saves| == run.found / SaveEvery
    && forall i :: 0 <= i < |run.saves| ==>
         |run.saves[i]| == |start| + SaveEvery * (i + 1) && Extends(run.saves[i], start)
         && Extends(run.cache, run.saves[i])
  }

  lemma ExtendsTransitive(a: map<string, Coords>, b: map<string, Coords>, c: map<string, Coords>)
    requires Extends(a, b) && Extends(b, c)
    ensures Extends(a, c)
  {
  }

  /** Tallying the result for an uncached key keeps the run consistent. */
  lemma TallyKeepsConsistent(run: Run, start: map<string, Coords>, key: string, coords: Option<Coords>)
    requires Consistent(run, start) && key !in run.cache
    ensures Consistent(Tally(run, key, coords), start)
  {
    if coords.Some? {
      var r := Tally(run, key, coords);
      assert |r.cache| == |run.cache| + 1 by {
        assert r.cache.Keys == run.cache.Keys + {key};
      }
      assert Extends(r.cache, run.cache);
      forall i | 0 <= i < |r.saves|
        ensures |r.saves[i]| == |start| + SaveEvery * (i + 1) && Extends(r.saves[i], start)
          && Extends(r.cache, r.saves[i])
      {
        if i < |run.saves| {
          assert r.saves[i] == run.saves[i];
          ExtendsTransitive(r.cache, run.cache, run.saves[i]);
        } else {
          assert r.saves[i] == r.cache && r.found == SaveEvery * (i + 1);
          ExtendsTransitive(r.cache, run.cache, start);
        }
      }
    }
  }

  lemma RecordKeepsConsistent(run: Run, start: map<string, Coords>, key: string, a: ShopAttempt)
    requires Consistent(run, start) && key !in run.cache
    ensures Consistent(Record(run, key, a), start)
  {
    TallyKeepsConsistent(run.(fetches := run.fetches + a.fetches, queries := run.queries + a.queries),
                         start, key, a.coords);
  }

  lemma StepKeepsConsistent(run: Run, start: map<string, Coords>, row: Row, web: Web,
                            nominatim: string -> Option<Coords>)
    requires Consistent(run, start)
    ensures Consistent(Step(run, row, web, nominatim), start)
  {
    if CacheKey(row) !in run.cache {
      RecordKeepsConsistent(run, start, CacheKey(row), LocateShop(row, web, nominatim));
    }
  }

  lemma {:induction false} ProcessKeepsConsistent(run: Run, start: map<string, Coords>, shops: seq<Row>,
                                                  web: Web, nominatim: string -> Option<Coords>)
    requires Consistent(run, start)
    ensures Consistent(Process(run, shops, web, nominatim), start)
    decreases |shops|
  {
    if shops != [] {
      var n := |shops| - 1;
      ProcessKeepsConsistent(run, start, shops[..n], web, nominatim);
      StepKeepsConsistent(Process(run, shops[..n], web, nominatim), start, shops[n], web, nominatim);
    }
  }

  /** `newFoundCount` counts the entries the run adds; the file is written once per five
      finds and once at the end, the i-th periodic write holding the loaded entries and
      5(i + 1) finds, and the final write holding the whole cache. Nothing loaded is lost
      or changed. */
  lemma BatchWrites(rows: seq<Row>, stored: Option<map<string, Coords>>, web: Web,
                    nominatim: string -> Option<Coords>)
    ensures var start := LoadedCache(stored);
      var r := RunBatch(rows, stored, web, nominatim);
      Extends(r.cache, start)
      && r.found == |r.cache| - |start|
      && |r.saves| == r.found / SaveEvery + 1 && r.saves[|r.saves| - 1] == r.cache
      && forall i :: 0 <= i < |r.saves| - 1 ==>
           |r.saves[i]| == |start| + SaveEvery * (i + 1) && Extends(r.saves[i], start)
           && Extends(r.cache, r.saves[i])
  {
    var start := LoadedCache(stored);
    ProcessKeepsConsistent(Run(start, 0, [], [], []), start, ShopsToProcess(rows), web, nominatim);
  }

  /** A shop whose key is already cached costs nothing: no fetch, no query, no change. */
  lemma CachedShopIsSkipped(run: Run, row: Row, web: Web, nominatim: string -> Option<Coords>)
    requires CacheKey(row) in run.cache
    ensures Step(run, row, web, nominatim) == run
  {
  }

  /** An uncached shop is cached under its key exactly when it is found, with the
      coordinates found. */
  lemma UncachedShopIsLocated(run: Run, row: Row, web: Web, nominatim: string -> Option<Coords>)
    requires CacheKey(row) !in run.cache
    ensures var a := LocateShop(row, web, nominatim);
      var r := Step(run, row, web, nominatim);
      (CacheKey(row) in r.cache <==> a.coords.Some?)
      && (a.coords.Some? ==> r.cache[CacheKey(row)] == a.coords.value)
      && r.cache == (if a.coords.Some? then run.cache[CacheKey(row) := a.coords.value] else run.cache)
      && r.fetches == run.fetches + a.fetches && r.queries == run.queries + a.queries
  {
  }

  /** Keys are not unique to a shop: a `-` may move between the name and the suburb. The
      second of two such rows is taken for cached once the first is found, and skipped. */
  lemma KeyCollision(x: string, y: string, z: string, first: Row, second: Row, run: Run, web: Web,
                     nominatim: string -> Option<Coords>)
    requires first.shopName == x + "-" + y && first.suburb == z
    requires second.shopName == x && second.suburb == y + "-" + z
    requires CacheKey(first) !in run.cache && LocateShop(first, web, nominatim).coords.Some?
    ensures first != second && CacheKey(first) == CacheKey(second)
    ensures var after := Step(run, first, web, nominatim);
      CacheKey(second) in after.cache && Step(after, second, web, nominatim) == after
  {
    assert |first.shopName| != |second.shopName|;
    AppendAssoc(x + "-" + y, "-", z);
    AppendAssoc(x + "-", y, "-" + z);
    AppendAssoc(x + "-", y + "-", z);
    AppendAssoc(y, "-", z);
    assert CacheKey(first) == CacheKey(second);
  }

  /** Every entry a run adds belongs to one of the shops it processed. */
  lemma {:induction false} NewKeysComeFromShops(run: Run, shops: seq<Row>, web: Web,
                                                nominatim: string -> Option<Coords>)
    ensures var r := Process(run, shops, web, nominatim);
      forall k :: k in r.cache && k !in run.cache ==> exists row :: row in shops && k == CacheKey(row)
    decreases |shops|
  {
    if shops != [] {
      var n := |shops| - 1;
      NewKeysComeFromShops(run, shops[..n], web, nominatim);
      var before := Process(run, shops[..n], web, nominatim);
      forall k | k in Process(run, shops, web, nominatim).cache && k !in run.cache
        ensures exists row :: row in shops && k == CacheKey(row)
      {
        if k in before.cache {
          var row :| row in shops[..n] && k == CacheKey(row);
          assert row in shops;
        } else {
          assert shops[n] in shops;
        }
      }
    }
  }

  /** A run sends at most one link fetch and four Nominatim queries per processed shop,
      so at most 100 fetches and 400 queries in all. */
  lemma {:induction false} RequestsBounded(run: Run, shops: seq<Row>, web: Web,
                                           nominatim: string -> Option<Coords>)
    ensures var r := Process(run, shops, web, nominatim);
      |r.fetches| <= |run.fetches| + |shops| && |r.queries| <= |run.queries| + 4 * |shops|
    decreases |shops|
  {
    if shops != [] {
      var n := |shops| - 1;
      RequestsBounded(run, shops[..n], web, nominatim);
      LocateShopBounded(shops[n], web, nominatim);
    }
  }

  lemma BatchRequestsBounded(rows: seq<Row>, stored: Option<map<string, Coords>>, web: Web,
                             nominatim: string -> Option<Coords>)
    ensures var r := RunBatch(rows, stored, web, nominatim);
      |r.fetches| <= BatchSize && |r.queries| <= 4 * BatchSize
  {
    RequestsBounded(Run(LoadedCache(stored), 0, [], [], []), ShopsToProcess(rows), web, nominatim);
  }

  /** The running script: its state as fields, the network as oracles. */
  class BatchRun {
    const web: Web
    const nominatim: string -> Option<Coords>
    var geocodedData: map<string, Coords>
    var newFoundCount: nat
    var written: seq<map<string, Coords>>
    var fetched: seq<string>
    var queried: seq<string>

    function State(): Run
      reads this
    {
      Run(geocodedData, newFoundCount, written, fetched, queried)
    }

    /** Loading the existing output file before the loop. */
    constructor (web: Web, nominatim: string -> Option<Coords>, stored: Option<map<string, Coords>>)
      ensures this.web == web && this.nominatim == nominatim
      ensures State() == Run(LoadedCache(stored), 0, [], [], [])
    {
      this.web := web;
      this.nominatim := nominatim;
      geocodedData := if stored.Some? then stored.value else map[];
      newFoundCount := 0;
      written := [];
      fetched := [];
      queried := [];
    }

    /** `geocodeAddress`: one Nominatim query. */
    method GeocodeAddress(address: string) returns (coords: Option<Coords>)
      modifies this
      ensures coords == nominatim(address) && queried == old(queried) + [address]
      ensures geocodedData == old(geocodedData) && newFoundCount == old(newFoundCount)
      ensures written == old(written) && fetched == old(fetched)
    {
      queried := queried + [address];
      coords := nominatim(address);
    }

    /** `resolveGoogleInfo`: at most one fetch, of a fetchable link. */
    method ResolveGoogleInfo(googleUrl: string) returns (info: Option<LinkInfo>)
      modifies this
      ensures info == GoogleLink.ResolveGoogleInfo(googleUrl, web)
      ensures fetched == old(fetched) + FetchesFor(googleUrl) && queried == old(queried)
      ensures geocodedData == old(geocodedData) && newFoundCount == old(newFoundCount) && written == old(written)
    {
      if googleUrl == "" || !StartsWith(googleUrl, "http") {
        return None;
      }
      fetched := fetched + [googleUrl];
      var finalUrl := web.follow(googleUrl);
      if finalUrl.None? {
        return None;
      }
      info := Some(LinkInfo(CanonicalName(finalUrl.value, web), ScanCoords(finalUrl.value)));
    }

    /** Strategies 2 to 5: the Nominatim queries, each tried only while nothing is found. */
    method Fallback(shop: Row, searchName: string, cleanName: string) returns (coords: Option<Coords>)
      modifies this
      ensures var h := FirstHit(Fallbacks(shop, searchName, cleanName), nominatim);
        coords == h.coords && queried == old(queried) + h.asked
      ensures geocodedData == old(geocodedData) && newFoundCount == old(newFoundCount)
      ensures written == old(written) && fetched == old(fetched)
    {
      ghost var log0 := queried;
      ghost var h := FirstHit(Fallbacks(shop, searchName, cleanName), nominatim);
      ghost var centre := if shop.suburb != "" then [CentreQuery(shop)] else [];
      ghost var named := if searchName != shop.shopName then [NameQuery(searchName)] + centre else centre;
      // what remains to be tried after each strategy, while nothing is found
      ghost var after2 := FirstHit([SuburbQuery(shop, cleanName)] + named, nominatim);
      ghost var after3 := FirstHit(named, nominatim);
      ghost var after4 := FirstHit(centre, nominatim);
      ghost var before := queried;

      FirstHitCons(FullQuery(shop, cleanName), [SuburbQuery(shop, cleanName)] + named, nominatim);
      coords := GeocodeAddress(FullQuery(shop, cleanName));
      if coords.None? {
        AppendAssoc(before, [FullQuery(shop, cleanName)], after2.asked);
      }
      assert coords.Some? ==> queried == log0 + h.asked && coords == h.coords;
      assert coords.None? ==> log0 + h.asked == queried + after2.asked && h.coords == after2.coords;

      if coords.None? {
        before := queried;
        FirstHitCons(SuburbQuery(shop, cleanName), named, nominatim);
        coords := GeocodeAddress(SuburbQuery(shop, cleanName));
        if coords.None? {
          AppendAssoc(before, [SuburbQuery(shop, cleanName)], after3.asked);
        }
      }
      assert coords.Some? ==> queried == log0 + h.asked && coords == h.coords;
      assert coords.None? ==> log0 + h.asked == queried + after3.asked && h.coords == after3.coords;

      if coords.None? && searchName != shop.shopName {
        before := queried;
        FirstHitCons(NameQuery(searchName), centre, nominatim);
        coords := GeocodeAddress(NameQuery(searchName));
        if coords.None? {
          AppendAssoc(before, [NameQuery(searchName)], after4.asked);
        }
      }
      assert coords.Some? ==> queried == log0 + h.asked && coords == h.coords;
      assert coords.None? ==> log0 + h.asked == queried + after4.asked && h.coords == after4.coords;

      if coords.None? && shop.suburb != "" {
        FirstHitSingle(CentreQuery(shop), nominatim);
        coords := GeocodeAddress(CentreQuery(shop));
      }
      assert coords.None? && shop.suburb == "" ==> after4 == Attempt(None, []);
    }

    /** Strategies 1 to 5 of the loop body for one uncached shop. */
    method Locate(shop: Row) returns (coords: Option<Coords>)
      modifies this
      ensures var a := LocateShop(shop, web, nominatim);
        coords == a.coords && fetched == old(fetched) + a.fetches && queried == old(queried) + a.queries
      ensures geocodedData == old(geocodedData) && newFoundCount == old(newFoundCount) && written == old(written)
    {
      ghost var info: Option<LinkInfo> := None;
      coords := None;
      var searchName := shop.shopName;
      if shop.google != "" {
        var googleInfo := ResolveGoogleInfo(shop.google);
        info := googleInfo;
        if googleInfo.Some? {
          if googleInfo.value.coords.Some? {
            coords := googleInfo.value.coords;
          }
          if googleInfo.value.name.Some? && googleInfo.value.name.value != "" {
            searchName := googleInfo.value.name.value;
          }
        }
      }
      assert searchName == SearchName(shop, info);
      if coords.None? {
        var cleanName := CleanShopName(searchName);
        coords := Fallback(shop, searchName, cleanName);
      }
    }

    /** The `if (coords)` block of the loop body. */
    method Store(key: string, coords: Option<Coords>)
      modifies this
      ensures State() == Tally(old(State()), key, coords)
    {
      if coords.Some? {
        geocodedData := geocodedData[key := coords.value];
        newFoundCount := newFoundCount + 1;
        if newFoundCount % SaveEvery == 0 {
          written := written + [geocodedData];
        }
      }
    }

    /** One pass of the loop of `main`: skip a cached shop, otherwise locate it and store
        what was found. */
    method Visit(shop: Row)
      modifies this
      ensures State() == Step(old(State()), shop, web, nominatim)
    {
      var key := CacheKey(shop);
      if key in geocodedData {
        return;
      }
      var coords := Locate(shop);
      Store(key, coords);
    }

    /** `main` from the parsed sheet on: the loop over the first hundred listed shops, then
        the final write. `rows` is the parsed sheet. */
    method ProcessSheet(rows: seq<Row>)
      modifies this
      ensures State() == Finish(Process(old(State()), ShopsToProcess(rows), web, nominatim))
    {
      var shops := ListedShops(rows);
      var shopsToProcess := Take(shops, BatchSize);
      for i := 0 to |shopsToProcess|
        invariant State() == Process(old(State()), shopsToProcess[..i], web, nominatim)
      {
        ProcessStep(old(State()), shopsToProcess, i, web, nominatim);
        Visit(shopsToProcess[i]);
      }
      WholeSlice(shopsToProcess);
      written := written + [geocodedData];
    }
  }
}
