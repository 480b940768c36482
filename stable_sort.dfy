/** The stable sort `Array.prototype.sort` performs when its comparator is
    `(a, b) => key(b) - key(a)`: non-increasing by `key`, equal keys in input order. */
module StableSort {

  predicate NonIncreasing<T>(s: seq<T>, key: T -> real)
  {
    forall i, j :: 0 <= i < j < |s| ==> key(s[i]) >= key(s[j])
  }

  /** The elements of `s` whose key is `v`, in the order of `s`. */
  function WithKey<T>(s: seq<T>, key: T -> real, v: real): (r: seq<T>)
    ensures |r| <= |s|
    ensures forall x :: x in r ==> x in s && key(x) == v
  {
    if s == [] then [] else (if key(s[0]) == v then [s[0]] else []) + WithKey(s[1..], key, v)
  }

  /** `a` and `b` hold, for every key value, the same elements in the same order. */
  ghost predicate SameOrderPerKey<T>(a: seq<T>, b: seq<T>, key: T -> real)
  {
    forall v :: WithKey(a, key, v) == WithKey(b, key, v)
  }

  lemma WithKeyCons<T>(x: T, s: seq<T>, key: T -> real, v: real)
    ensures WithKey([x] + s, key, v) == (if key(x) == v then [x] else []) + WithKey(s, key, v)
  {
    assert ([x] + s)[1..] == s;
  }

  /** Inserts `x` before the first element whose key is not greater than its own. */
  function Insert<T>(x: T, s: seq<T>, key: T -> real): (r: seq<T>)
    ensures |r| == |s| + 1
    ensures multiset(r) == multiset(s) + multiset{x}
  {
    if s == [] || key(s[0]) <= key(x) then [x] + s
    else
      assert s == [s[0]] + s[1..];
      [s[0]] + Insert(x, s[1..], key)
  }

  lemma {:induction false} InsertKeepsOrder<T>(x: T, s: seq<T>, key: T -> real)
    requires NonIncreasing(s, key)
    ensures NonIncreasing(Insert(x, s, key), key)
    decreases |s|
  {
    if !(s == [] || key(s[0]) <= key(x)) {
      var t := Insert(x, s[1..], key);
      InsertKeepsOrder(x, s[1..], key);
      var r := [s[0]] + t;
      forall k | 0 <= k < |t| ensures key(t[k]) <= key(s[0]) {
        assert t[k] in multiset(t);
        if t[k] != x {
          assert t[k] in multiset(s[1..]);
          var m :| 0 <= m < |s[1..]| && s[1..][m] == t[k];
          assert s[m + 1] == t[k];
        }
      }
      assert forall i, j :: 0 < i < j < |r| ==> r[i] == t[i - 1] && r[j] == t[j - 1];
    }
  }

  /** Insertion puts `x` ahead of the elements with its own key. */
  lemma {:induction false} InsertWithKey<T>(x: T, s: seq<T>, key: T -> real, v: real)
    ensures WithKey(Insert(x, s, key), key, v) == (if key(x) == v then [x] else []) + WithKey(s, key, v)
    decreases |s|
  {
    if s == [] || key(s[0]) <= key(x) {
      WithKeyCons(x, s, key, v);
    } else {
      InsertWithKey(x, s[1..], key, v);
      WithKeyCons(s[0], Insert(x, s[1..], key), key, v);
      WithKeyCons(s[0], s[1..], key, v);
      assert s == [s[0]] + s[1..];
    }
  }

  /** The stably sorted `s`: an insertion sort in which each element goes in front of
      the later elements with the same key. */
  function Sort<T>(s: seq<T>, key: T -> real): (r: seq<T>)
    ensures |r| == |s|
    ensures multiset(r) == multiset(s)
  {
    if s == [] then []
    else
      assert s == [s[0]] + s[1..];
      Insert(s[0], Sort(s[1..], key), key)
  }

  /** The sort orders by key, highest first. */
  lemma {:induction false} SortOrders<T>(s: seq<T>, key: T -> real)
    ensures NonIncreasing(Sort(s, key), key)
    decreases |s|
  {
    if s != [] {
      SortOrders(s[1..], key);
      InsertKeepsOrder(s[0], Sort(s[1..], key), key);
    }
  }

  /** The sort is stable: elements with equal keys keep their input order. */
  lemma {:induction false} SortIsStable<T>(s: seq<T>, key: T -> real, v: real)
    ensures WithKey(Sort(s, key), key, v) == WithKey(s, key, v)
    decreases |s|
  {
    if s != [] {
      SortIsStable(s[1..], key, v);
      InsertWithKey(s[0], Sort(s[1..], key), key, v);
      WithKeyCons(s[0], s[1..], key, v);
      assert s == [s[0]] + s[1..];
    }
  }

  /** The first element is the first of those with its key. */
  lemma WithKeyHead<T>(a: seq<T>, key: T -> real)
    requires a != []
    ensures WithKey(a, key, key(a[0])) != [] && WithKey(a, key, key(a[0]))[0] == a[0]
  {
  }

  /** Dropping the first element drops it from the elements with its key, and only there. */
  lemma WithKeyTail<T>(a: seq<T>, key: T -> real, v: real)
    requires a != []
    ensures WithKey(a[1..], key, v) == if key(a[0]) == v then WithKey(a, key, v)[1..] else WithKey(a, key, v)
  {
    var p := if key(a[0]) == v then [a[0]] else [];
    assert WithKey(a, key, v) == p + WithKey(a[1..], key, v);
    assert (p + WithKey(a[1..], key, v))[|p|..] == WithKey(a[1..], key, v);
  }

  /** Two non-increasing orders with the same elements per key start with the same key. */
  lemma HeadKeysAgree<T>(a: seq<T>, b: seq<T>, key: T -> real)
    requires a != [] && NonIncreasing(b, key)
    requires WithKey(a, key, key(a[0])) == WithKey(b, key, key(a[0]))
    ensures b != [] && key(b[0]) >= key(a[0])
  {
    WithKeyHead(a, key);
    assert a[0] in WithKey(b, key, key(a[0]));
    var j :| 0 <= j < |b| && b[j] == a[0];
  }

  /** Two non-increasing orders of the same elements that agree, key value by key value,
      on the order of the elements are the same sequence. */
  lemma {:induction false} SortedUnique<T>(a: seq<T>, b: seq<T>, key: T -> real)
    requires NonIncreasing(a, key) && NonIncreasing(b, key)
    requires SameOrderPerKey(a, b, key)
    ensures a == b
    decreases |a|
  {
    if a != [] {
      HeadKeysAgree(a, b, key);
      HeadKeysAgree(b, a, key);
      var k := key(a[0]);
      WithKeyHead(a, key);
      WithKeyHead(b, key);
      assert WithKey(a, key, k) == WithKey(b, key, k);
      assert a[0] == b[0];
      forall v ensures WithKey(a[1..], key, v) == WithKey(b[1..], key, v) {
        assert WithKey(a, key, v) == WithKey(b, key, v);
        WithKeyTail(a, key, v);
        WithKeyTail(b, key, v);
      }
      SortedUnique(a[1..], b[1..], key);
      assert a == [a[0]] + a[1..] && b == [b[0]] + b[1..];
    } else if b != [] {
      HeadKeysAgree(b, a, key);
    }
  }

  /** Any stable sort of `s` by `key` (non-increasing, equal keys in input order) is `Sort(s, key)`. */
  lemma StableSortIsSort<T>(s: seq<T>, t: seq<T>, key: T -> real)
    requires NonIncreasing(t, key)
    requires SameOrderPerKey(t, s, key)
    ensures t == Sort(s, key)
  {
    SortOrders(s, key);
    forall v ensures WithKey(t, key, v) == WithKey(Sort(s, key), key, v) {
      SortIsStable(s, key, v);
    }
    SortedUnique(t, Sort(s, key), key);
  }

  /** Sorting what is already in order changes nothing. */
  lemma SortSorted<T>(s: seq<T>, key: T -> real)
    requires NonIncreasing(s, key)
    ensures Sort(s, key) == s
  {
    StableSortIsSort(s, s, key);
  }

  /** In a non-increasing sequence, nothing after position `n` has a greater key than
      anything before it. */
  lemma PrefixDominates<T>(s: seq<T>, key: T -> real, n: nat)
    requires NonIncreasing(s, key) && n <= |s|
    ensures forall x, y :: x in s[..n] && y in s[n..] ==> key(x) >= key(y)
  {
    forall x, y | x in s[..n] && y in s[n..] ensures key(x) >= key(y) {
      var i :| 0 <= i < n && s[..n][i] == x;
      var j :| 0 <= j < |s| - n && s[n..][j] == y;
      assert s[i] == x && s[n + j] == y;
    }
  }
}
