/** `cleanShopName` from scripts/geocode_shops.js: drop parenthesised text, collapse
    whitespace runs to one space, trim. */
module ShopNames {
  import opened Common
  import opened Text

  /** For a `(` standing just before `t`: the index in `t` of the `)` that the lazy
      pattern `\(.*?\)` pairs it with, i.e. the first `)`, provided no line terminator
      (which `.` does not match) comes before it. */
  function MatchClose(t: string): (r: Option<nat>)
    ensures r.Some? ==> r.value < |t| && t[r.value] == ')'
    ensures r.Some? ==> forall j :: 0 <= j < r.value ==> t[j] != ')' && !IsLineTerminator(t[j])
    ensures r.None? ==> forall j :: 0 <= j < |t| && t[j] == ')' ==> exists i :: 0 <= i < j && IsLineTerminator(t[i])
  {
    if t == [] then None
    else if t[0] == ')' then Some(0)
    else if IsLineTerminator(t[0]) then None
    else
      match MatchClose(t[1..])
      case Some(k) => Some(k + 1)
      case None =>
        assert forall j :: 1 <= j < |t| && t[j] == ')' ==> t[1..][j - 1] == ')';
        None
  }

  /** `name.replace(/\(.*?\)/g, '')`: scanning left to right, every `(` that has a match
      is removed together with everything up to and including its `)`; the scan resumes
      after the `)`. A `(` without a match is kept and the scan moves on by one. */
  function StripParens(s: string): (r: string)
    ensures |r| <= |s|
    decreases |s|
  {
    if s == [] then []
    else if s[0] == '(' && MatchClose(s[1..]).Some? then StripParens(s[MatchClose(s[1..]).value + 2..])
    else [s[0]] + StripParens(s[1..])
  }

  /** No `(` in `s` has a matching `)`: the pattern has nothing left to remove. */
  predicate NoGroup(s: string)
  {
    forall i :: 0 <= i < |s| && s[i] == '(' ==> MatchClose(s[i + 1..]).None?
  }

  lemma NoGroupTail(s: string)
    requires s != [] && NoGroup(s)
    ensures NoGroup(s[1..])
  {
    forall i | 0 <= i < |s[1..]| && s[1..][i] == '(' ensures MatchClose(s[1..][i + 1..]).None? {
      assert s[1..][i + 1..] == s[i + 2..];
    }
  }

  /** A string without a closable `(` stays closed-free once it is stripped. */
  lemma {:induction false} StripParensKeepsUnclosable(t: string)
    requires MatchClose(t).None?
    ensures MatchClose(StripParens(t)).None?
    decreases |t|
  {
    if t != [] && !IsLineTerminator(t[0]) {
      assert t[0] != ')';
      assert MatchClose(t[1..]).None?;
      StripParensKeepsUnclosable(t[1..]);
      if t[0] == '(' {
        assert StripParens(t) == [t[0]] + StripParens(t[1..]);
      }
      assert StripParens(t)[1..] == StripParens(t[1..]);
    }
  }

  /** The regex leaves no removable group behind: the result has no `(` with a match. */
  lemma {:induction false} StripParensLeavesNoGroup(s: string)
    ensures NoGroup(StripParens(s))
    decreases |s|
  {
    if s == [] {
    } else if s[0] == '(' && MatchClose(s[1..]).Some? {
      StripParensLeavesNoGroup(s[MatchClose(s[1..]).value + 2..]);
    } else {
      var r := StripParens(s);
      var tail := StripParens(s[1..]);
      StripParensLeavesNoGroup(s[1..]);
      assert r == [s[0]] + tail;
      forall i | 0 <= i < |r| && r[i] == '(' ensures MatchClose(r[i + 1..]).None? {
        if i == 0 {
          StripParensKeepsUnclosable(s[1..]);
          assert r[1..] == tail;
        } else {
          assert r[i + 1..] == tail[i..];
          assert tail[i - 1] == '(';
        }
      }
    }
  }

  /** Stripping changes nothing when there is no removable group. */
  lemma {:induction false} NoGroupIsFixed(s: string)
    requires NoGroup(s)
    ensures StripParens(s) == s
    decreases |s|
  {
    if s != [] {
      NoGroupTail(s);
      NoGroupIsFixed(s[1..]);
      if s[0] == '(' {
        assert MatchClose(s[0 + 1..]).None?;
      }
    }
  }

  /** Applying the parenthesis pattern twice removes nothing more than applying it once. */
  lemma StripParensIdempotent(s: string)
    ensures StripParens(StripParens(s)) == StripParens(s)
  {
    StripParensLeavesNoGroup(s);
    NoGroupIsFixed(StripParens(s));
  }

  /** Text before the first `(` is kept as it is, and stripping goes on after it. */
  lemma {:induction false} StripParensKeepsPlain(a: string, b: string)
    requires forall k :: 0 <= k < |a| ==> a[k] != '('
    ensures StripParens(a + b) == a + StripParens(b)
    decreases |a|
  {
    if a == [] {
      assert a + b == b;
    } else {
      assert (a + b)[0] == a[0] && (a + b)[1..] == a[1..] + b;
      StripParensKeepsPlain(a[1..], b);
      AppendAssoc([a[0]], a[1..], StripParens(b));
      assert [a[0]] + a[1..] == a;
    }
  }

  /** A `(` followed on the same line by its `)` closes at that `)`. */
  lemma MatchCloseAtFirst(inner: string, rest: string)
    requires forall k :: 0 <= k < |inner| ==> inner[k] != ')' && !IsLineTerminator(inner[k])
    ensures MatchClose(inner + ")" + rest) == Some(|inner|)
  {
    var t := inner + ")" + rest;
    assert t[|inner|] == ')';
    assert forall k :: 0 <= k < |inner| ==> t[k] == inner[k];
  }

  /** A `(` that closes nowhere is kept, and stripping carries on after it. */
  lemma UnclosableKept(t: string)
    requires MatchClose(t).None?
    ensures StripParens("(" + t) == "(" + StripParens(t)
  {
    assert ("(" + t)[1..] == t;
  }

  /** A parenthesised group on one line is removed whole, and stripping goes on after it. */
  lemma StripParensDropsGroup(inner: string, b: string)
    requires forall k :: 0 <= k < |inner| ==> inner[k] != ')' && !IsLineTerminator(inner[k])
    ensures StripParens("(" + inner + ")" + b) == StripParens(b)
  {
    var s := "(" + inner + ")" + b;
    assert s[1..] == inner + ")" + b;
    MatchCloseAtFirst(inner, b);
    assert s[|inner| + 2..] == b;
  }

  /** No two adjacent whitespace characters. */
  predicate NoDoubleSpace(s: string)
  {
    forall k :: 0 <= k < |s| - 1 ==> !(IsSpace(s[k]) && IsSpace(s[k + 1]))
  }

  /** Every whitespace character is a plain space. */
  predicate OnlyPlainSpaces(s: string)
  {
    forall k :: 0 <= k < |s| && IsSpace(s[k]) ==> s[k] == ' '
  }

  /** Putting `c` in front keeps the spacing rules when `c` is a plain space followed by a
      visible character, or is itself visible. */
  lemma ConsKeepsSpacing(c: char, t: string)
    requires NoDoubleSpace(t) && OnlyPlainSpaces(t)
    requires IsSpace(c) ==> c == ' ' && (t == [] || !IsSpace(t[0]))
    ensures NoDoubleSpace([c] + t) && OnlyPlainSpaces([c] + t)
  {
    var r := [c] + t;
    assert forall k :: 0 < k < |r| ==> r[k] == t[k - 1];
  }

  /** `s.replace(/\s+/g, ' ')`: each maximal run of whitespace becomes one space. */
  function Collapse(s: string): (r: string)
    ensures NoDoubleSpace(r) && OnlyPlainSpaces(r)
    ensures r == [] <==> s == []
    ensures r != [] ==> (IsSpace(r[0]) <==> IsSpace(s[0]))
    ensures r != [] ==> (IsSpace(r[|r| - 1]) <==> IsSpace(s[|s| - 1]))
    decreases |s|
  {
    if s == [] then []
    else if IsSpace(s[0]) then
      var rest := TrimStart(s[1..]);
      assert rest == [] ==> AllSpace(s[1..]);
      ConsKeepsSpacing(' ', Collapse(rest));
      [' '] + Collapse(rest)
    else
      ConsKeepsSpacing(s[0], Collapse(s[1..]));
      [s[0]] + Collapse(s[1..])
  }

  /** A whitespace run on its own becomes one plain space. */
  lemma CollapseRun(w: string)
    requires w != [] && AllSpace(w)
    ensures Collapse(w) == " "
  {
    assert TrimStart(w[1..]) == [];
  }

  /** Text with no whitespace is kept as it is. */
  lemma {:induction false} CollapseKeepsWord(w: string)
    requires forall k :: 0 <= k < |w| ==> !IsSpace(w[k])
    ensures Collapse(w) == w
    decreases |w|
  {
    if w != [] {
      CollapseKeepsWord(w[1..]);
      assert [w[0]] + w[1..] == w;
    }
  }

  /** Skipping leading whitespace stops inside `x` when `x` ends in a visible character. */
  lemma {:induction false} TrimStartAppend(x: string, y: string)
    requires x != [] && !IsSpace(x[|x| - 1])
    ensures TrimStart(x + y) == TrimStart(x) + y
    ensures TrimStart(x) != [] && TrimStart(x)[|TrimStart(x)| - 1] == x[|x| - 1]
    decreases |x|
  {
    assert (x + y)[0] == x[0];
    if IsSpace(x[0]) {
      assert (x + y)[1..] == x[1..] + y;
      TrimStartAppend(x[1..], y);
    }
  }

  lemma {:induction false} TrimStartSkipsRun(v: string, b: string)
    requires AllSpace(v) && (b == [] || !IsSpace(b[0]))
    ensures TrimStart(v + b) == b
    decreases |v|
  {
    if v == [] {
      assert v + b == b;
    } else {
      assert (v + b)[0] == v[0] && (v + b)[1..] == v[1..] + b;
      TrimStartSkipsRun(v[1..], b);
    }
  }

  /** Collapsing works run by run: a cut after a visible character splits the result there. */
  lemma {:induction false} CollapseJoin(a: string, b: string)
    requires a == [] || !IsSpace(a[|a| - 1])
    ensures Collapse(a + b) == Collapse(a) + Collapse(b)
    decreases |a|
  {
    if a == [] {
      assert a + b == b;
    } else {
      assert (a + b)[0] == a[0] && (a + b)[1..] == a[1..] + b;
      if IsSpace(a[0]) {
        TrimStartAppend(a[1..], b);
        var t := TrimStart(a[1..]);
        CollapseJoin(t, b);
        AppendAssoc([' '], Collapse(t), Collapse(b));
      } else {
        CollapseJoin(a[1..], b);
        AppendAssoc([a[0]], Collapse(a[1..]), Collapse(b));
      }
    }
  }

  /** A leading whitespace run becomes exactly one space. */
  lemma CollapseRunThen(w: string, b: string)
    requires w != [] && AllSpace(w)
    requires b == [] || !IsSpace(b[0])
    ensures Collapse(w + b) == " " + Collapse(b)
  {
    assert (w + b)[0] == w[0] && (w + b)[1..] == w[1..] + b;
    TrimStartSkipsRun(w[1..], b);
  }

  /** Between a word and the rest of the text, a whitespace run becomes exactly one space. */
  lemma CollapseBetweenWords(a: string, w: string, b: string)
    requires a != [] && forall k :: 0 <= k < |a| ==> !IsSpace(a[k])
    requires w != [] && AllSpace(w)
    requires b == [] || !IsSpace(b[0])
    ensures Collapse(a + w + b) == a + " " + Collapse(b)
  {
    AppendAssoc(a, w, b);
    CollapseJoin(a, w + b);
    CollapseKeepsWord(a);
    CollapseRunThen(w, b);
    AppendAssoc(a, " ", Collapse(b));
  }

  /** The characters of `s` other than whitespace, in order. */
  function Visible(s: string): (r: string)
    ensures |r| <= |s|
  {
    if s == [] then [] else (if IsSpace(s[0]) then [] else [s[0]]) + Visible(s[1..])
  }

  lemma {:induction false} VisibleAppend(a: string, b: string)
    ensures Visible(a + b) == Visible(a) + Visible(b)
    decreases |a|
  {
    if a == [] {
      assert a + b == b;
    } else {
      assert (a + b)[1..] == a[1..] + b;
      VisibleAppend(a[1..], b);
    }
  }

  lemma {:induction false} VisibleAllSpace(s: string)
    requires AllSpace(s)
    ensures Visible(s) == []
    decreases |s|
  {
    if s != [] {
      VisibleAllSpace(s[1..]);
    }
  }

  /** Collapsing whitespace keeps every other character, in order. */
  lemma {:induction false} CollapseKeepsVisible(s: string)
    ensures Visible(Collapse(s)) == Visible(s)
    decreases |s|
  {
    if s != [] {
      if IsSpace(s[0]) {
        var rest := TrimStart(s[1..]);
        CollapseKeepsVisible(rest);
        assert s[1..] == s[1..][..|s[1..]| - |rest|] + rest;
        VisibleAppend(s[1..][..|s[1..]| - |rest|], rest);
        VisibleAllSpace(s[1..][..|s[1..]| - |rest|]);
        VisibleAppend([' '], Collapse(rest));
      } else {
        CollapseKeepsVisible(s[1..]);
        VisibleAppend([s[0]], Collapse(s[1..]));
      }
    }
  }

  /** Whitespace on either side adds nothing visible. */
  lemma VisibleBetweenSpaces(lead: string, r: string, trail: string)
    requires AllSpace(lead) && AllSpace(trail)
    ensures Visible(lead + r + trail) == Visible(r)
  {
    VisibleAppend(lead + r, trail);
    VisibleAppend(lead, r);
    VisibleAllSpace(lead);
    VisibleAllSpace(trail);
  }

  /** Trimming keeps every character that is not whitespace, in order. */
  lemma TrimKeepsVisible(s: string)
    ensures Visible(Trim(s)) == Visible(s)
  {
    TrimIsSlice(s);
    var i := TrimOffset(s);
    var r := Trim(s);
    SplitInThree(s, i, i + |r|);
    VisibleBetweenSpaces(s[..i], r, s[i + |r|..]);
  }

  /** A slice cannot have adjacent or non-plain whitespace that its string lacks. */
  lemma SliceKeepsSpacing(s: string, i: nat, j: nat)
    requires i <= j <= |s| && NoDoubleSpace(s) && OnlyPlainSpaces(s)
    ensures NoDoubleSpace(s[i..j]) && OnlyPlainSpaces(s[i..j])
  {
    var r := s[i..j];
    forall k | 0 <= k < |r| - 1 ensures !(IsSpace(r[k]) && IsSpace(r[k + 1])) {
      assert r[k] == s[i + k] && r[k + 1] == s[i + k + 1];
    }
    forall k | 0 <= k < |r| && IsSpace(r[k]) ensures r[k] == ' ' {
      assert r[k] == s[i + k];
    }
  }

  /** Trimming cannot create adjacent or non-plain whitespace. */
  lemma TrimKeepsSpacing(s: string)
    requires NoDoubleSpace(s) && OnlyPlainSpaces(s)
    ensures NoDoubleSpace(Trim(s)) && OnlyPlainSpaces(Trim(s))
  {
    TrimAt(s);
    SliceKeepsSpacing(s, TrimOffset(s), TrimOffset(s) + |Trim(s)|);
  }

  /** `cleanShopName`. */
  function CleanShopName(name: string): (r: string)
    ensures r == [] || (!IsSpace(r[0]) && !IsSpace(r[|r| - 1]))
    ensures NoDoubleSpace(r) && OnlyPlainSpaces(r)
  {
    var c := Collapse(StripParens(name));
    TrimKeepsSpacing(c);
    Trim(c)
  }

  /** What cleaning keeps: exactly the visible characters left by the parenthesis pattern. */
  lemma CleanShopNameKeepsVisible(name: string)
    ensures Visible(CleanShopName(name)) == Visible(StripParens(name))
  {
    TrimKeepsVisible(Collapse(StripParens(name)));
    CollapseKeepsVisible(StripParens(name));
  }

  /** A name with no `(` is only whitespace-collapsed and trimmed. */
  lemma CleanShopNameWithoutParens(name: string)
    requires forall k :: 0 <= k < |name| ==> name[k] != '('
    ensures CleanShopName(name) == Trim(Collapse(name))
  {
    NoGroupIsFixed(name);
  }
}
