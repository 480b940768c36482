/** The URL-string part of `resolveGoogleInfo` in scripts/geocode_shops.js: which links
    are fetched, the canonical name taken from the `q` parameter, and the `@lat,lon`
    coordinates scanned out of the final URL. */
module GoogleLink {
  import opened Common
  import opened Text

  predicate IsDigit(c: char)
  {
    '0' <= c <= '9'
  }

  predicate AllDigits(t: string)
  {
    forall k :: 0 <= k < |t| ==> IsDigit(t[k])
  }

  /** Every character of `s[i..j]` is a digit. */
  predicate DigitsBetween(s: string, i: nat, j: nat)
    requires i <= j <= |s|
  {
    forall k :: i <= k < j ==> IsDigit(s[k])
  }

  lemma DigitsBetweenSlice(s: string, i: nat, j: nat)
    requires i <= j <= |s| && DigitsBetween(s, i, j)
    ensures AllDigits(s[i..j])
  {
    forall k | 0 <= k < j - i
      ensures IsDigit(s[i..j][k])
    {
      assert s[i..j][k] == s[i + k];
    }
  }

  /** The length of the run of digits that starts at offset `i`. */
  function DigitRun(s: string, i: nat): (n: nat)
    requires i <= |s|
    ensures i + n <= |s| && DigitsBetween(s, i, i + n)
    ensures i + n < |s| ==> !IsDigit(s[i + n])
    decreases |s| - i
  {
    if i < |s| && IsDigit(s[i]) then 1 + DigitRun(s, i + 1) else 0
  }

  /** A run of digits is exactly as long as the maximal run around it allows. */
  lemma {:induction false} DigitRunCovers(s: string, i: nat, j: nat)
    requires i <= j <= |s| && DigitsBetween(s, i, j)
    ensures DigitRun(s, i) >= j - i
    ensures j < |s| && !IsDigit(s[j]) ==> DigitRun(s, i) == j - i
    decreases j - i
  {
    if i < j {
      DigitRunCovers(s, i + 1, j);
    }
  }

  function Pow10(n: nat): (p: nat)
    ensures p >= 1
  {
    if n == 0 then 1 else 10 * Pow10(n - 1)
  }

  /** The number a string of decimal digits denotes. */
  function DigitsValue(d: string): (v: nat)
    requires AllDigits(d)
  {
    if d == [] then 0 else DigitsValue(d[..|d| - 1]) * 10 + (d[|d| - 1] as int - '0' as int)
  }

  lemma {:induction false} DigitsValueBelow(d: string)
    requires AllDigits(d)
    ensures DigitsValue(d) < Pow10(|d|)
    decreases |d|
  {
    if d != [] {
      DigitsValueBelow(d[..|d| - 1]);
    }
  }

  /** One number as written in the URL, `-?\d+\.\d+`, split into its parts. */
  datatype Decimal = Decimal(negative: bool, whole: string, frac: string)
  {
    function Text(): string
    {
      (if negative then "-" else "") + whole + "." + frac
    }

    predicate WellFormed()
    {
      |whole| > 0 && |frac| > 0 && AllDigits(whole) && AllDigits(frac)
    }

    /** The exact value `parseFloat` approximates. */
    function Value(): real
      requires WellFormed()
    {
      var magnitude := DigitsValue(whole) as real + DigitsValue(frac) as real / Pow10(|frac|) as real;
      if negative then -magnitude else magnitude
    }
  }

  lemma FractionBelowOne(f: real, p: real)
    requires 0.0 <= f < p
    ensures 0.0 <= f / p < 1.0
  {
  }

  /** The value read from a number has its sign and its integer part as written. */
  lemma DecimalValueBounds(d: Decimal)
    requires d.WellFormed()
    ensures d.negative ==> -(DigitsValue(d.whole) as real + 1.0) < d.Value() <= -(DigitsValue(d.whole) as real)
    ensures !d.negative ==> DigitsValue(d.whole) as real <= d.Value() < DigitsValue(d.whole) as real + 1.0
  {
    DigitsValueBelow(d.frac);
    FractionBelowOne(DigitsValue(d.frac) as real, Pow10(|d.frac|) as real);
  }

  /** `s[i..e]` has the form `\d+\.\d+` with its dot at `p`. */
  predicate DotAt(s: string, i: nat, p: nat, e: nat)
  {
    i < p && p + 1 < e <= |s| && s[p] == '.' && DigitsBetween(s, i, p) && DigitsBetween(s, p + 1, e)
  }

  /** `s[i..e]` has the form `\d+\.\d+`, stated without reference to the scanner. */
  predicate IsUnsignedDecimalAt(s: string, i: nat, e: nat)
  {
    exists p :: i < p < e && DotAt(s, i, p, e)
  }

  /** `s[i..e]` has the form `-?\d+\.\d+`. */
  predicate IsDecimalAt(s: string, i: nat, e: nat)
  {
    IsUnsignedDecimalAt(s, i, e) || (i < |s| && s[i] == '-' && IsUnsignedDecimalAt(s, i + 1, e))
  }

  lemma DecimalLength(s: string, i: nat, e: nat)
    requires IsDecimalAt(s, i, e)
    ensures i + 3 <= e <= |s|
  {
  }

  /** The text `s[i..e]` read as a sign, a digit run, a dot and a second digit run. */
  lemma NumberText(s: string, i: nat, j: nat, p: nat, e: nat, neg: bool)
    requires i <= j < p < e <= |s| && s[p] == '.'
    requires neg ==> j == i + 1 && s[i] == '-'
    requires !neg ==> j == i
    ensures s[i..e] == Decimal(neg, s[j..p], s[p + 1..e]).Text()
  {
    SliceSplit(s, j, p, e);
    SliceSplit(s, p, p + 1, e);
    assert s[p..p + 1] == ".";
    AppendAssoc(s[j..p], ".", s[p + 1..e]);
    SliceSplit(s, i, j, e);
    if neg {
      assert s[i..j] == "-";
      AppendAssoc("-", s[j..p] + ".", s[p + 1..e]);
      AppendAssoc("-", s[j..p], ".");
    } else {
      assert s[i..j] == "";
    }
  }

  /** `\d+\.\d+` at offset `j`: the offset of its dot and the offset just past it. Each
      `\d+` takes its whole run of digits; the pattern cannot match a shorter run, since
      what must follow (`.`, `,`) is not a digit. */
  function UnsignedAt(s: string, j: nat): (r: Option<(nat, nat)>)
    requires j <= |s|
    ensures r.Some? ==> DotAt(s, j, r.value.0, r.value.1)
    ensures r.Some? ==> r.value.1 == |s| || !IsDigit(s[r.value.1])
  {
    var d := DigitRun(s, j);
    if d == 0 || j + d >= |s| || s[j + d] != '.' then None
    else
      var f := DigitRun(s, j + d + 1);
      if f == 0 then None else Some((j + d, j + d + 1 + f))
  }

  /** `-?\d+\.\d+` at offset `i`: the number and the offset just past it. */
  function NumberAt(s: string, i: nat): (r: Option<(Decimal, nat)>)
    requires i <= |s|
    ensures r.Some? ==> r.value.0.WellFormed() && i < r.value.1 <= |s|
    ensures r.Some? ==> r.value.1 == |s| || !IsDigit(s[r.value.1])
  {
    var neg := i < |s| && s[i] == '-';
    var j := if neg then i + 1 else i;
    match UnsignedAt(s, j)
    case None => None
    case Some((p, e)) =>
      DigitsBetweenSlice(s, j, p);
      DigitsBetweenSlice(s, p + 1, e);
      Some((Decimal(neg, s[j..p], s[p + 1..e]), e))
  }

  /** A number read at `i` is exactly the text it spans. */
  lemma NumberAtText(s: string, i: nat)
    requires i <= |s| && NumberAt(s, i).Some?
    ensures s[i..NumberAt(s, i).value.1] == NumberAt(s, i).value.0.Text()
  {
    var neg := i < |s| && s[i] == '-';
    var j := if neg then i + 1 else i;
    var (p, e) := UnsignedAt(s, j).value;
    NumberText(s, i, j, p, e, neg);
  }

  /** How the scanner reads a text of the grammar `\d+\.\d+` with its dot at `p`: it
      finds that dot, and reads on at least to `e` (exactly to `e` when a non-digit follows). */
  lemma UnsignedAtComplete(s: string, j: nat, p: nat, e: nat)
    requires DotAt(s, j, p, e)
    ensures UnsignedAt(s, j).Some? && UnsignedAt(s, j).value.0 == p && UnsignedAt(s, j).value.1 >= e
    ensures e < |s| && !IsDigit(s[e]) ==> UnsignedAt(s, j).value.1 == e
  {
    DigitRunCovers(s, j, p);
    DigitRunCovers(s, p + 1, e);
  }

  /** Every text of the grammar `-?\d+\.\d+` is read whole (and no further, when a
      non-digit follows it). */
  lemma NumberAtComplete(s: string, i: nat, e: nat)
    requires IsDecimalAt(s, i, e)
    ensures i < e <= |s|
    ensures NumberAt(s, i).Some? && NumberAt(s, i).value.1 >= e
    ensures e < |s| && !IsDigit(s[e]) ==> NumberAt(s, i).value.1 == e
  {
    if i < |s| && s[i] == '-' {
      assert !IsUnsignedDecimalAt(s, i, e);
      var p: nat :| i + 1 < p < e && DotAt(s, i + 1, p, e);
      UnsignedAtComplete(s, i + 1, p, e);
    } else {
      var p: nat :| i < p < e && DotAt(s, i, p, e);
      UnsignedAtComplete(s, i, p, e);
    }
  }

  /** The two numbers of one `@lat,lon` match. */
  datatype AtCoords = AtCoords(lat: Decimal, lon: Decimal)
  {
    /** `{ lat: parseFloat(match[1]), lon: parseFloat(match[2]) }`. */
    function ToCoords(): Coords
    {
      if lat.WellFormed() && lon.WellFormed() then Coords(lat.Value(), lon.Value()) else Coords(0.0, 0.0)
    }
  }

  /** The pattern `@(-?\d+\.\d+),(-?\d+\.\d+)` tried at offset `i`. */
  function MatchAt(s: string, i: nat): (r: Option<AtCoords>)
    requires i <= |s|
    ensures r.Some? ==> i < |s| && s[i] == '@' && r.value.lat.WellFormed() && r.value.lon.WellFormed()
  {
    if i < |s| && s[i] == '@' then
      match NumberAt(s, i + 1)
      case None => None
      case Some((lat, e)) =>
        if e < |s| && s[e] == ',' then
          match NumberAt(s, e + 1)
          case None => None
          case Some((lon, _)) => Some(AtCoords(lat, lon))
        else None
    else None
  }

  /** A match at `i` is a number read at `i + 1`, then `,`, then a number read after it. */
  lemma MatchAtParts(s: string, i: nat)
    requires i <= |s| && MatchAt(s, i).Some?
    ensures i < |s| && s[i] == '@' && NumberAt(s, i + 1).Some?
    ensures var e := NumberAt(s, i + 1).value.1;
      && e < |s| && s[e] == ',' && NumberAt(s, e + 1).Some?
      && MatchAt(s, i).value == AtCoords(NumberAt(s, i + 1).value.0, NumberAt(s, e + 1).value.0)
  {
  }

  /** Conversely, `@`, a number, `,` and a number make a match. */
  lemma MatchAtFromParts(s: string, i: nat)
    requires i < |s| && s[i] == '@' && NumberAt(s, i + 1).Some?
    requires var e := NumberAt(s, i + 1).value.1; e < |s| && s[e] == ',' && NumberAt(s, e + 1).Some?
    ensures var e := NumberAt(s, i + 1).value.1;
      MatchAt(s, i) == Some(AtCoords(NumberAt(s, i + 1).value.0, NumberAt(s, e + 1).value.0))
  {
  }

  /** Where the two numbers of a match at `i` end. */
  function MatchEnds(s: string, i: nat): (nat, nat)
    requires i <= |s| && MatchAt(s, i).Some?
  {
    MatchAtParts(s, i);
    var e := NumberAt(s, i + 1).value.1;
    (e, NumberAt(s, e + 1).value.1)
  }

  lemma MatchAtWellFormed(s: string, i: nat)
    requires i <= |s| && MatchAt(s, i).Some?
    ensures MatchAt(s, i).value.lat.WellFormed() && MatchAt(s, i).value.lon.WellFormed()
  {
    MatchAtParts(s, i);
  }

  lemma MatchAtText(s: string, i: nat)
    requires i <= |s| && MatchAt(s, i).Some?
    ensures var m, (e, e2) := MatchAt(s, i).value, MatchEnds(s, i);
      && e2 <= |s| && s[i] == '@' && s[i + 1..e] == m.lat.Text() && s[e] == ',' && s[e + 1..e2] == m.lon.Text()
  {
    MatchAtParts(s, i);
    NumberAtText(s, i + 1);
    NumberAtText(s, NumberAt(s, i + 1).value.1 + 1);
  }

  lemma MatchAtEnd(s: string, i: nat)
    requires i <= |s| && MatchAt(s, i).Some?
    ensures var e2 := MatchEnds(s, i).1;
      e2 <= |s| && (e2 == |s| || !IsDigit(s[e2]))
  {
    MatchAtParts(s, i);
  }

  /** What a match at `i` consists of: `@`, the latitude text, `,`, the longitude text,
      and then no further digit. */
  lemma MatchAtSound(s: string, i: nat)
    requires i <= |s| && MatchAt(s, i).Some?
    ensures var m, (e, e2) := MatchAt(s, i).value, MatchEnds(s, i);
      && m.lat.WellFormed() && m.lon.WellFormed() && e2 <= |s|
      && s[i] == '@' && s[i + 1..e] == m.lat.Text() && s[e] == ',' && s[e + 1..e2] == m.lon.Text()
      && (e2 == |s| || !IsDigit(s[e2]))
  {
    MatchAtWellFormed(s, i);
    MatchAtText(s, i);
    MatchAtEnd(s, i);
  }

  /** Wherever the text `@`, a number, `,`, a number stands, the pattern matches there and
      its first group is exactly that latitude. */
  lemma MatchAtComplete(s: string, i: nat, j: nat, k: nat)
    requires i < j < k <= |s| && s[i] == '@' && s[j] == ','
    requires IsDecimalAt(s, i + 1, j) && IsDecimalAt(s, j + 1, k)
    ensures MatchAt(s, i).Some?
    ensures MatchAt(s, i).value.lat.Text() == s[i + 1..j]
  {
    MatchAtFound(s, i, j, k);
    MatchAtParts(s, i);
    NumberAtText(s, i + 1);
  }

  /** The pattern matches at an `@` followed by a number ending at `j`, `,` and a number. */
  lemma MatchAtFound(s: string, i: nat, j: nat, k: nat)
    requires i < j < k <= |s| && s[i] == '@' && s[j] == ','
    requires IsDecimalAt(s, i + 1, j) && IsDecimalAt(s, j + 1, k)
    ensures MatchAt(s, i).Some? && NumberAt(s, i + 1).Some? && NumberAt(s, i + 1).value.1 == j
  {
    NumberAtComplete(s, i + 1, j);
    NumberAtComplete(s, j + 1, k);
    MatchAtFromParts(s, i);
  }

  /** `url.match(re)`: the leftmost offset, from `from` on, at which the pattern matches. */
  function FirstMatch(s: string, from: nat): (r: Option<(nat, AtCoords)>)
    requires from <= |s|
    ensures r.Some? ==> from <= r.value.0 < |s| && MatchAt(s, r.value.0) == Some(r.value.1)
    ensures r.Some? ==> forall i :: from <= i < r.value.0 ==> MatchAt(s, i).None?
    ensures r.None? ==> forall i :: from <= i <= |s| ==> MatchAt(s, i).None?
    decreases |s| - from
  {
    if from == |s| then None
    else
      var m := MatchAt(s, from);
      if m.Some? then Some((from, m.value)) else FirstMatch(s, from + 1)
  }

  /** The pattern matches at `i` and at no offset before it. */
  predicate IsFirstMatch(url: string, i: nat)
  {
    i < |url| && MatchAt(url, i).Some? && forall j :: 0 <= j < i ==> MatchAt(url, j).None?
  }

  /** The `coords` field: taken from the leftmost `@lat,lon` in the final URL, if any. */
  function ScanCoords(url: string): (r: Option<Coords>)
    ensures r.None? <==> forall i :: 0 <= i <= |url| ==> MatchAt(url, i).None?
    ensures r.Some? ==> exists i :: IsFirstMatch(url, i) && r.value == MatchAt(url, i).value.ToCoords()
  {
    match FirstMatch(url, 0)
    case None => None
    case Some((i, m)) =>
      MatchAtSound(url, i);
      assert IsFirstMatch(url, i);
      Some(m.ToCoords())
  }

  /** A final URL holding `@`, a number, `,`, a number always yields coordinates. */
  lemma ScanCoordsFindsPattern(url: string, i: nat, j: nat, k: nat)
    requires i < j < k <= |url| && url[i] == '@' && url[j] == ','
    requires IsDecimalAt(url, i + 1, j) && IsDecimalAt(url, j + 1, k)
    ensures ScanCoords(url).Some?
  {
    MatchAtComplete(url, i, j, k);
  }

  /** What a resolved link yields: a canonical name, coordinates, both or neither. */
  datatype LinkInfo = LinkInfo(name: Option<string>, coords: Option<Coords>)

  /** The network and the URL library, as oracles: `follow` fetches a link following
      redirects and gives the final URL (`None` when the fetch throws); `queryQ` is
      `new URL(u).searchParams.get('q')` (`None` when parsing throws or there is no `q`);
      `decodeUri` is `decodeURIComponent` (`None` when it throws). */
  datatype Web = Web(
    follow: string -> Option<string>,
    queryQ: string -> Option<string>,
    decodeUri: string -> Option<string>)

  /** The guard at the top of `resolveGoogleInfo`: a non-empty link starting with `http`. */
  predicate IsFetchable(link: string)
  {
    link != "" && StartsWith(link, "http")
  }

  /** The `name` field: the decoded, non-empty `q` parameter with every `+` made a space. */
  function CanonicalName(finalUrl: string, web: Web): (r: Option<string>)
    ensures r.Some? <==> (web.queryQ(finalUrl).Some? && web.queryQ(finalUrl).value != ""
      && web.decodeUri(web.queryQ(finalUrl).value).Some?)
    ensures r.Some? ==> var d := web.decodeUri(web.queryQ(finalUrl).value).value;
      |r.value| == |d| && (forall k :: 0 <= k < |d| ==> r.value[k] == if d[k] == '+' then ' ' else d[k])
  {
    match web.queryQ(finalUrl)
    case None => None
    case Some(q) =>
      if q == "" then None
      else match web.decodeUri(q)
        case None => None
        case Some(d) => Some(ReplaceChar(d, '+', ' '))
  }

  /** The whole of `resolveGoogleInfo`: `None` without a fetch for a link that is not
      fetchable, `None` when the fetch fails, otherwise both extractions from the final URL. */
  function ResolveGoogleInfo(link: string, web: Web): (r: Option<LinkInfo>)
    ensures !IsFetchable(link) ==> r.None?
    ensures IsFetchable(link) ==> (r.Some? <==> web.follow(link).Some?)
    ensures r.Some? ==> (r.value.name == CanonicalName(web.follow(link).value, web)
      && r.value.coords == ScanCoords(web.follow(link).value))
  {
    if !IsFetchable(link) then None
    else match web.follow(link)
      case None => None
      case Some(finalUrl) => Some(LinkInfo(CanonicalName(finalUrl, web), ScanCoords(finalUrl)))
  }

  /** The fetches `resolveGoogleInfo` makes: exactly one, of the link itself, when it is fetchable. */
  function FetchesFor(link: string): (r: seq<string>)
    ensures r == [] <==> !IsFetchable(link)
    ensures r != [] ==> r == [link]
  {
    if IsFetchable(link) then [link] else []
  }
}
