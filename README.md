# Kebab Director: a verified model of its geocoding and ranking logic

Kebab Director shows the shops of a community kebab spreadsheet (the "Kebabalogue") on a
map. This project models, in Dafny, the three parts of the repository that hold real logic:

- **The batch geocoder** (`scripts/geocode_shops.js`, module `BatchGeocoder` with
  `ShopNames`, `GoogleLink` and `Text`). It keeps the listed rows of the sheet and takes
  the first hundred. Every shop whose `name-suburb` key is not yet in the cache goes
  through a fallback chain:
  1. coordinates taken from the shop's resolved Google Maps link;
  2. the cleaned name with suburb and postcode;
  3. the cleaned name with the suburb;
  4. the link's canonical name alone;
  5. the suburb centre.

  The chain stops at the first success. Each find is cached and counted. The cache key
  `name-suburb` is not unique to a shop: `a-b`/`c` and `a`/`b-c` share it, and, as in the
  script, the second such row is then skipped as already cached (`KeyCollision`). The
  cache file is written on every fifth find and once at the end. `cleanShopName` (parenthesised text
  dropped, whitespace collapsed, trimmed) is modelled character by character. So are the
  `http` guard and the `@lat,lon` pattern scan of `resolveGoogleInfo`. For its `q`
  parameter only the test that it is non-empty and the turning of `+` into spaces are
  modelled; reading and decoding the parameter are oracles (below).
  The run itself is a class, `BatchRun`, whose methods are proved against the functions
  `LocateShop`, `Step` and `Process`.
- **The score ranker** (`loadCoordinates` and `topShops` in `src/components/KebabMap.tsx`,
  modules `ScoreRanker` and `StableSort`). It keeps the pre-geocoded shops. Only with a
  user location does it cut them to 100 km, sort them stably by score
  `rating * 10 - distance * 2` and badge the first ten with ranks 1 to 10. When fewer
  than five shops remain, it looks up at most five unlocated shops, the best rated first,
  and appends those it finds (with a user location, only those within 100 km). With a
  user location it then re-sorts and re-ranks the whole list; without one the list stays
  in its order, unranked.
- **The cache-first lookup** (`geocodeAddress` in `src/lib/geocoding.ts`, module
  `Geocoding`). In the browser a cache hit is answered without a request. A success is
  stored under the exact address. A failure, or any call on the server side, leaves the
  cache alone.

The network, the URL library, `parseFloat` and the distance function are parameters of the
model, as oracles:
- `Web.follow` fetches a link and follows its redirects;
- `Web.queryQ` is `searchParams.get('q')`;
- `Web.decodeUri` is `decodeURIComponent`;
- `nominatim` gives the first search result;
- `dist` stands for `calculateDistance`.

Each oracle gives the same answer to the same question within a run. Numbers are exact
`real`s.

## Model

| member | source | states |
|---|---|---|
| Text.Trim | scripts/geocode_shops.js:94 | `trim()` leaves no whitespace at either end, and gives `""` exactly when the string is all whitespace |
| Text.TrimIsSlice | scripts/geocode_shops.js:94 | the trimmed string is a contiguous slice of the input with only whitespace before and after it |
| Text.Contains | scripts/geocode_shops.js:110 | `includes(sub)` is true exactly when `sub` occurs at some offset |
| Text.ReplaceChar | scripts/geocode_shops.js:68 | `replace(/\+/g, ' ')` keeps the length and turns every `+`, and nothing else, into a space |
| ShopNames.MatchClose | scripts/geocode_shops.js:92 | the lazy `\(.*?\)` closes at the first `)` with no line terminator before it, and finds none when every `)` has a line terminator before it |
| ShopNames.StripParens | scripts/geocode_shops.js:92 | removing the parenthesised groups never lengthens the name |
| ShopNames.MatchCloseAtFirst | scripts/geocode_shops.js:92 | a `(` whose text up to the next `)` has no line terminator closes at that `)` |
| ShopNames.StripParensKeepsPlain | scripts/geocode_shops.js:92 | text with no `(` is kept as it is, and stripping carries on after it |
| ShopNames.StripParensDropsGroup | scripts/geocode_shops.js:92 | a group `(`…`)` on one line is removed whole, and stripping carries on after it |
| ShopNames.UnclosableKept | scripts/geocode_shops.js:92 | a `(` that closes nowhere is kept, and stripping carries on after it |
| ShopNames.StripParensKeepsUnclosable | scripts/geocode_shops.js:92 | text with no closable `(` still has none after stripping |
| ShopNames.StripParensLeavesNoGroup | scripts/geocode_shops.js:92 | after the global replace no `(` with a matching `)` remains |
| ShopNames.NoGroupIsFixed | scripts/geocode_shops.js:92 | a name with no removable group is left unchanged |
| ShopNames.StripParensIdempotent | scripts/geocode_shops.js:92 | applying the parenthesis pattern twice removes nothing more than applying it once |
| ShopNames.Collapse | scripts/geocode_shops.js:93 | `replace(/\s+/g, ' ')` leaves no two adjacent whitespace characters and only plain spaces; it is empty exactly when the input is, and keeps whether it starts or ends with whitespace (the lemmas below fix the result exactly) |
| ShopNames.CollapseRun | scripts/geocode_shops.js:93 | a whitespace run on its own becomes exactly one space |
| ShopNames.CollapseKeepsWord | scripts/geocode_shops.js:93 | text with no whitespace is kept as it is |
| ShopNames.CollapseJoin | scripts/geocode_shops.js:93 | the replace works run by run: cutting the input just after a visible character cuts the result there |
| ShopNames.CollapseRunThen | scripts/geocode_shops.js:93 | a leading whitespace run becomes exactly one space, and the rest is collapsed on its own |
| ShopNames.CollapseBetweenWords | scripts/geocode_shops.js:93 | a word, then a whitespace run, then the rest becomes the word, one space, and the collapsed rest |
| ShopNames.CollapseKeepsVisible | scripts/geocode_shops.js:93 | collapsing keeps every non-whitespace character, in order |
| ShopNames.TrimKeepsVisible | scripts/geocode_shops.js:94 | trimming keeps every non-whitespace character, in order |
| ShopNames.TrimKeepsSpacing | scripts/geocode_shops.js:94 | trimming creates no adjacent or non-plain whitespace |
| ShopNames.CleanShopName | scripts/geocode_shops.js:90-95 | the cleaned name has no whitespace at either end, no two adjacent whitespace characters, and no whitespace other than a plain space |
| ShopNames.CleanShopNameKeepsVisible | scripts/geocode_shops.js:90-95 | cleaning keeps exactly the non-whitespace characters left after removing the parenthesised groups |
| ShopNames.CleanShopNameWithoutParens | scripts/geocode_shops.js:90-95 | a name with no `(` is only whitespace-collapsed and trimmed |
| GoogleLink.DecimalValueBounds | scripts/geocode_shops.js:78-79 | a number read from the URL has the sign and the integer part it was written with |
| GoogleLink.NumberAt | scripts/geocode_shops.js:74 | a number read at an offset is well formed, ends inside the string, and is not followed by a digit |
| GoogleLink.NumberAtText | scripts/geocode_shops.js:74 | a number read at an offset is exactly the text it spans |
| GoogleLink.MatchAt | scripts/geocode_shops.js:74 | the pattern matches only at an `@`, and then with two well-formed numbers |
| GoogleLink.NumberAtComplete | scripts/geocode_shops.js:74 | every text of the form `-?\d+\.\d+` is read whole, and no further when a non-digit follows |
| GoogleLink.MatchAtSound | scripts/geocode_shops.js:74 | a pattern match at an offset consists of `@`, the latitude text, `,` and the longitude text, both well formed |
| GoogleLink.MatchAtComplete | scripts/geocode_shops.js:74 | wherever `@`, a number, `,` and a number stand, the pattern matches, and its first group is exactly that latitude |
| GoogleLink.FirstMatch | scripts/geocode_shops.js:75 | `url.match(re)` returns the leftmost offset from which the pattern matches, with no match before it; it returns none only when no offset matches |
| GoogleLink.ScanCoords | scripts/geocode_shops.js:72-81 | `coords` is set exactly when the pattern matches somewhere, and then from the leftmost match, latitude first |
| GoogleLink.ScanCoordsFindsPattern | scripts/geocode_shops.js:74-81 | a final URL that contains `@lat,lon` always yields coordinates |
| GoogleLink.CanonicalName | scripts/geocode_shops.js:63-70 | `name` is set exactly when `q` is present, non-empty and decodes, and then it is the decoded text with every `+` made a space |
| GoogleLink.ResolveGoogleInfo | scripts/geocode_shops.js:43-88 | a link that is empty or does not start with `http` gives null; otherwise the result is null exactly when the fetch fails, and holds the name and the coordinates of the final URL |
| GoogleLink.FetchesFor | scripts/geocode_shops.js:44-47 | a link is fetched exactly once when it passes the guard, and not at all otherwise |
| StableSort.Insert | src/components/KebabMap.tsx:165-175 | insertion adds exactly the one element |
| StableSort.Sort | src/components/KebabMap.tsx:165-175 | the sort keeps the length and is a permutation of its input |
| StableSort.SortOrders | src/components/KebabMap.tsx:165-175 | the sort leaves the keys non-increasing, as the comparator `scoreB - scoreA` asks |
| StableSort.SortIsStable | src/components/KebabMap.tsx:165-175 | elements with equal keys keep their input order, as `Array.prototype.sort` is stable |
| StableSort.StableSortIsSort | src/components/KebabMap.tsx:165-175 | any non-increasing arrangement that keeps equal keys in input order is this sort's result, so the model fixes the order `Array.prototype.sort` must produce |
| StableSort.SortSorted | src/components/KebabMap.tsx:211-221 | re-sorting a list that is already in score order changes nothing |
| StableSort.PrefixDominates | src/components/KebabMap.tsx:189-190 | in a non-increasing list nothing after a cut has a greater key than anything before it |
| Geocoding.CachedLookup | src/lib/geocoding.ts:10-54 | a browser cache hit returns the cached value with no request and no change; any other call sends one request and returns its answer; only a browser-side success adds the exact address; no other entry changes; a failure or a server-side call leaves the cache as it was |
| Geocoding.RepeatLookupIsCached | src/lib/geocoding.ts:12-16 | after a successful browser-side lookup, asking again for the same address returns the same coordinates from the cache, without a request |
| Geocoding.LookupOnlyAdds | src/lib/geocoding.ts:40-45 | the cache is never shrunk and no entry is replaced |
| Geocoding.LookupAll | src/components/KebabMap.tsx:192-194 | the lookups made one after another give one answer per lookup and send at most one request per lookup (an address that keeps failing is requested each time), only for addresses asked for, and every address on the server side; they never lose or change a cached entry |
| Geocoding.LookupAllAdds | src/lib/geocoding.ts:40-45 | every entry the lookups add is a browser-side Nominatim answer for its own address |
| Geocoding.LookupAllAnswers | src/components/KebabMap.tsx:192-194 | lookup i answers from the starting cache when in the browser and the address was cached, and with Nominatim's answer otherwise |
| Geocoding.StepAnswer | src/lib/geocoding.ts:10-54 | a lookup made after earlier ones answers as it would from the starting cache, since every entry added meanwhile is Nominatim's own answer |
| Geocoding.GeocodingClient.constructor | src/lib/geocoding.ts:13 | the client starts from the stored cache with no requests sent |
| Geocoding.GeocodingClient.GeocodeAddress | src/lib/geocoding.ts:10-54 | the method returns the result of `CachedLookup`, leaves its cache, and logs its request when one is sent |
| ScoreRanker.PreGeocoded | src/components/KebabMap.tsx:146-147 | exactly the shops with both coordinates truthy are placed, at those coordinates |
| ScoreRanker.PreGeocodedAppend | src/components/KebabMap.tsx:146-147 | the filter keeps the listed order: filtering a concatenation concatenates the filtered parts |
| ScoreRanker.WithinRadius | src/components/KebabMap.tsx:160 | an entry is kept exactly when its distance (0 when absent) is at most 100 |
| ScoreRanker.WithinRadiusAppend | src/components/KebabMap.tsx:160 | the radius filter keeps the list's order: filtering a concatenation concatenates the filtered parts |
| ScoreRanker.AssignRanks | src/components/KebabMap.tsx:178-181 | entry i gets rank i + 1 exactly when i < 10 and no rank otherwise; every other field is unchanged |
| ScoreRanker.InitialView | src/components/KebabMap.tsx:145-182 | the first list has no more entries than the pre-geocoded shops; without a user location nothing in it is ranked or measured |
| ScoreRanker.Unlocated | src/components/KebabMap.tsx:188 | exactly the shops with neither coordinate truthy are kept |
| ScoreRanker.UnlocatedAppend | src/components/KebabMap.tsx:188 | the filter keeps the listed order: filtering a concatenation concatenates the filtered parts |
| ScoreRanker.Pick | src/components/KebabMap.tsx:195-207 | one lookup pushes one entry exactly when it found the shop and, with a user location, the shop is within 100 km; the entry is that shop at the coordinates found, unranked, measured exactly when there is a user |
| ScoreRanker.Widen | src/components/KebabMap.tsx:192-208 | the widening keeps the list it started from and appends at most one entry per candidate; each appended entry is an unbadged candidate, within the radius and measured when there is a user location |
| ScoreRanker.Hits | src/components/KebabMap.tsx:192-208 | the pushes written front to back, at most one per candidate |
| ScoreRanker.WidenIsHits | src/components/KebabMap.tsx:192-208 | the widening is the first list followed by each candidate's push, in candidate order |
| ScoreRanker.WidenKeepsEveryHit | src/components/KebabMap.tsx:192-208 | every lookup that found its shop (within 100 km when there is a user) appends that shop at the coordinates found, after the earlier candidates' pushes |
| ScoreRanker.WidenHitsInOrder | src/components/KebabMap.tsx:192-208 | a push for an earlier candidate lands before any push for a later one |
| ScoreRanker.WidenByLookups | src/components/KebabMap.tsx:192-208 | the loop looks up the candidates' addresses in order through the client, and its list is `Widen` of the answers |
| ScoreRanker.LoadCoordinates | src/components/KebabMap.tsx:141-232 | the method makes exactly the lookups of `WideningQueries` through the client, and the list it sets is `LoadResult` of their answers |
| ScoreRanker.LoadResult | src/components/KebabMap.tsx:145-227 | the final list holds the first list and at most five more entries, and is the first list when that has five or more entries |
| ScoreRanker.Badged | src/components/KebabMap.tsx:48 | `filter(s => s.rankDistance !== undefined)` keeps exactly the badged entries |
| ScoreRanker.TopShops | src/components/KebabMap.tsx:46-50 | the top list holds exactly the ranked entries, each as often as in the input, in ascending rank order |
| ScoreRanker.RankingOrders | src/components/KebabMap.tsx:165-181 | after sorting and ranking, scores are non-increasing and entry i has rank i + 1 exactly when i < 10; the sort is a permutation and keeps equal scores in input order |
| ScoreRanker.InitialViewPlaced | src/components/KebabMap.tsx:145-181 | every entry before widening is a listed shop with both coordinates, placed at them |
| ScoreRanker.HalfLocatedIgnored | src/components/KebabMap.tsx:146-188 | a shop with exactly one truthy coordinate is neither shown before widening nor looked up |
| ScoreRanker.WithDistancesMeasured | src/components/KebabMap.tsx:150-156 | every entry carries its own distance from the user |
| ScoreRanker.RankingKeepsNear | src/components/KebabMap.tsx:165-181 | ranking neither adds entries nor changes their distances |
| ScoreRanker.LocatedView | src/components/KebabMap.tsx:150-181 | with a user location, the list before widening is ranked, and every entry is within 100 km at its measured distance |
| ScoreRanker.NearShopKept | src/components/KebabMap.tsx:158-160 | no pre-geocoded shop within 100 km is dropped |
| ScoreRanker.WideningCandidatesUnlocated | src/components/KebabMap.tsx:187-190 | at most five shops are looked up; each has no coordinates; they come in non-increasing rating order |
| ScoreRanker.WideningChoosesTopRated | src/components/KebabMap.tsx:187-190 | the chosen and the passed-over shops are together the unlocated shops, and no passed-over shop is rated above a chosen one |
| ScoreRanker.AtMostFiveLookups | src/components/KebabMap.tsx:186-194 | at most five requests are sent, and none when five or more shops were placed |
| ScoreRanker.UnlocatedResult | src/components/KebabMap.tsx:150-208 | without a user location the pre-geocoded shops come first in input order, followed by at most five found shops; nothing is badged or measured |
| ScoreRanker.LocatedResult | src/components/KebabMap.tsx:186-226 | with a user location the final list, widened or not, is ranked by score, and every entry is within 100 km |
| ScoreRanker.TopShopsOfRanked | src/components/KebabMap.tsx:46-50 | the top list of a ranked list is its first ten entries (or all of them), in ascending rank order |
| BatchGeocoder.ListedShops | scripts/geocode_shops.js:107-111 | a row is kept exactly when its name is not blank after trimming and does not contain the closing notice |
| BatchGeocoder.ListedShopsAppend | scripts/geocode_shops.js:107-111 | filtering keeps the sheet's order: filtering a concatenation concatenates the filtered parts |
| BatchGeocoder.ShopsToProcessAreFirstListed | scripts/geocode_shops.js:126 | at most a hundred shops are processed; they are the first listed rows in sheet order, and all of them when there are no more than a hundred |
| BatchGeocoder.CacheKey | scripts/geocode_shops.js:130 | the key is the shop name, `-`, then the suburb |
| BatchGeocoder.KeyCollision | scripts/geocode_shops.js:130-136 | rows `x-y`/`z` and `x`/`y-z` are different but share a key, so once the first is found the second is skipped as cached |
| BatchGeocoder.FirstHitIsFirst | scripts/geocode_shops.js:157-179 | the queries sent are a prefix of the strategies' queries, and all but the last found nothing; the shop is found exactly when some query finds it, with the last query's answer; when nothing is found every query was sent |
| BatchGeocoder.Fallbacks | scripts/geocode_shops.js:157-179 | the full query, then the suburb query, then the name-only query exactly when the link's name differs from the sheet's, then the suburb centre exactly when there is a suburb, and nothing else |
| BatchGeocoder.FirstHit | scripts/geocode_shops.js:157-179 | the chain sends no more queries than it has, at least one when it has any, and a find is the answer to the last query sent |
| BatchGeocoder.FirstHitMissEndsAt | scripts/geocode_shops.js:157-179 | when no query finds the shop, the last query sent is the last of the chain, and it found nothing |
| BatchGeocoder.LocateShop | scripts/geocode_shops.js:139-179 | a link is fetched exactly when it passes the `http` guard; when no query is sent the shop was found from the link |
| BatchGeocoder.NotFoundFallsBack | scripts/geocode_shops.js:143-179 | a shop that is not found had no coordinates from its link, and every query of the chain was sent and failed |
| BatchGeocoder.LocateShopBounded | scripts/geocode_shops.js:142-179 | locating a shop fetches at most one link and sends at most four queries |
| BatchGeocoder.LinkCoordsNeedNoQuery | scripts/geocode_shops.js:143-158 | coordinates found in the link's final URL are taken as they are, after that one fetch, with no Nominatim query |
| BatchGeocoder.QueriesInStrategyOrder | scripts/geocode_shops.js:157-179 | without coordinates from the link, the first query is the full one; the queries follow strategy order, each sent only after all earlier ones failed; the shop is found exactly when some strategy finds it |
| BatchGeocoder.SuburbCentreIsLastResort | scripts/geocode_shops.js:175-179 | a shop with a suburb that is not found has had its suburb centre asked last, without result |
| BatchGeocoder.WithoutLinkSheetNameOnly | scripts/geocode_shops.js:143-173 | without a fetchable link nothing is fetched and only the sheet name's (at most three) queries can be sent |
| BatchGeocoder.Tally | scripts/geocode_shops.js:181-191 | a miss changes nothing; a find adds exactly its key with the coordinates found, changes no other entry, adds one to the count, and writes the cache exactly when the new count is a multiple of five |
| BatchGeocoder.TallyKeepsConsistent | scripts/geocode_shops.js:181-191 | storing a find or a miss under an uncached key keeps the run consistent with the loaded file |
| BatchGeocoder.RecordKeepsConsistent | scripts/geocode_shops.js:181-191 | storing the result for an uncached key keeps the run consistent: the count equals the keys added, and each periodic write holds five more finds |
| BatchGeocoder.Step | scripts/geocode_shops.js:129-192 | one iteration only adds entries, at most the shop's own key, and counts exactly the keys it adds |
| BatchGeocoder.Process | scripts/geocode_shops.js:129-192 | the loop only adds entries and its count is exactly the number of keys added |
| BatchGeocoder.StepKeepsConsistent | scripts/geocode_shops.js:129-192 | one pass of the loop keeps the run consistent |
| BatchGeocoder.ProcessKeepsConsistent | scripts/geocode_shops.js:129-192 | the whole loop keeps the run consistent |
| BatchGeocoder.BatchWrites | scripts/geocode_shops.js:115-194 | the cache only grows from the loaded file, and no loaded entry changes; `newFoundCount` is the number of keys added; the file is written once per five finds and once at the end; write i holds the loaded entries and 5(i + 1) finds; the last write is the whole cache |
| BatchGeocoder.CachedShopIsSkipped | scripts/geocode_shops.js:133-136 | a shop whose key is cached causes no fetch, no query and no change |
| BatchGeocoder.UncachedShopIsLocated | scripts/geocode_shops.js:138-191 | an uncached shop is cached under its key exactly when it is found, with what was found, and the cache is otherwise unchanged; its requests are logged |
| BatchGeocoder.NewKeysComeFromShops | scripts/geocode_shops.js:129-192 | every key a run adds is the key of a processed shop |
| BatchGeocoder.RequestsBounded | scripts/geocode_shops.js:129-192 | the loop sends at most one fetch and four queries per shop |
| BatchGeocoder.BatchRequestsBounded | scripts/geocode_shops.js:126-192 | a whole run sends at most 100 link fetches and 400 Nominatim queries |
| BatchGeocoder.BatchRun.constructor | scripts/geocode_shops.js:115-127 | the run starts from the loaded file's entries (none when the file is missing or broken), a zero count and no writes |
| BatchGeocoder.BatchRun.GeocodeAddress | scripts/geocode_shops.js:15-41 | one query is logged and its answer returned; nothing else changes |
| BatchGeocoder.BatchRun.ResolveGoogleInfo | scripts/geocode_shops.js:43-88 | the method returns what the `ResolveGoogleInfo` function gives and logs exactly the fetches of `FetchesFor` |
| BatchGeocoder.BatchRun.Fallback | scripts/geocode_shops.js:157-179 | strategies 2 to 5 send exactly the queries `FirstHit` sends over the strategies' queries and return its result |
| BatchGeocoder.BatchRun.Locate | scripts/geocode_shops.js:139-179 | the loop body's strategies return `LocateShop`'s coordinates and log exactly its fetches and queries |
| BatchGeocoder.BatchRun.Store | scripts/geocode_shops.js:181-191 | a find is stored under the key, counted, and written out when the count reaches a multiple of five; a miss changes nothing |
| BatchGeocoder.BatchRun.Visit | scripts/geocode_shops.js:129-192 | one iteration changes the state exactly as `Step` does |
| BatchGeocoder.BatchRun.ProcessSheet | scripts/geocode_shops.js:107-194 | the loop over the first hundred listed shops, then the final write, leaves the state `Finish(Process(...))`, about which `BatchWrites` and the lemmas above hold |

## Left out

- Network and library calls are deterministic oracles (`Web`, `nominatim`, `dist`). These are `fetch` with redirect following, `new URL(...).searchParams`, `decodeURIComponent`, the Nominatim search and `calculateDistance`. Their answers are taken as given and their own behaviour is not modelled.
- `parseFloat` and floating point: coordinates, ratings and distances are exact `real`s. The URL's numbers are given their exact decimal value. NaN is not modelled: an unparseable rating is an absent one, which counts as 0.
- The CSV download and `Papa.parse` are not modelled: the parsed rows are a parameter. A missing column is taken as the empty string.
- Reading and writing the JSON output file, and `localStorage`, are not modelled. The loaded file is an optional map of coordinates, and its entries are taken to be coordinate objects. A write is recorded as a snapshot of the cache.
- The one-second delays, the logging and the asynchronous interleaving of `loadCoordinates` with React rendering are not modelled. `setGeocodedShops` is the method's result.
- BatchGeocoder.BatchRun.Locate: `cleanShopName(searchName)` is computed once and shared by strategies 2 and 3, where the script computes it twice. The function is deterministic, so the queries are the same.
- ScoreRanker.LoadCoordinates: the in-place `Array.prototype.sort` calls are modelled as the function `Sort` on sequences. `StableSortIsSort` proves that function is the only stable non-increasing order.
- The loop body of `main` is split into the methods `Locate`, `Fallback` and `Store`, with `Visit` for one iteration. The order of effects is unchanged.
- The React and Leaflet rendering, `src/lib/kebabalogue.ts`, `KebabFinder.tsx`, `KebabTable.tsx`, the page layout and the debugging scripts are not part of this model.
