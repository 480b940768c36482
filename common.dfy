/** Values shared by every part of the model. */
module Common {

  /** A value that may be absent: JavaScript's `null` (or `undefined`) result. */
  datatype Option<T> = None | Some(value: T)

  /** A latitude/longitude pair as the code stores it (`{ lat, lon }`). Numbers are
      taken as exact reals: floating-point rounding is not part of the model. */
  datatype Coords = Coords(lat: real, lon: real)

  /** The first `n` elements of `s`, or all of `s` when it is shorter (`Array.prototype.slice(0, n)`). */
  function Take<T>(s: seq<T>, n: nat): (r: seq<T>)
    ensures |r| == if |s| < n then |s| else n
    ensures r == s[..|r|]
  {
    if |s| <= n then s else s[..n]
  }

  /** Slicing a sequence up to its own length gives it back. */
  lemma WholeSlice<T>(s: seq<T>)
    ensures s[..|s|] == s
  {
  }

  /** Concatenation is associative (stated once, so that callers need not re-derive it). */
  lemma AppendAssoc<T>(a: seq<T>, b: seq<T>, c: seq<T>)
    ensures (a + b) + c == a + (b + c)
  {
  }

  /** A sequence is the concatenation of its three slices around `i` and `j`. */
  lemma SplitInThree<T>(s: seq<T>, i: nat, j: nat)
    requires i <= j <= |s|
    ensures s == s[..i] + s[i..j] + s[j..]
  {
  }

  /** A slice is the concatenation of its two parts around `j`. */
  lemma SliceSplit<T>(s: seq<T>, i: nat, j: nat, k: nat)
    requires i <= j <= k <= |s|
    ensures s[i..k] == s[i..j] + s[j..k]
  {
  }
}
