/**
 The few operations of Python's `str` that the assistant's own logic relies on:
 `startswith`, the `in` substring test, `split` on one separator character,
 `sep.join`, `replace(pat, "")` and the no-argument `strip()`.
 Each is given as a function together with an independent characterisation
 (an index-based definition, an inverse, or the slice it returns).
 */
module PyStr {

  /** `s.startswith(p)` */
  predicate StartsWith(s: string, p: string) {
    |p| <= |s| && s[..|p|] == p
  }

  /** `p` occurs in `s` at index `i`. */
  ghost predicate OccursAt(s: string, p: string, i: int) {
    0 <= i && i + |p| <= |s| && s[i..i + |p|] == p
  }

  /** `p in s`: true exactly when `p` occurs somewhere in `s`. */
  function Contains(s: string, p: string): (b: bool)
    ensures b <==> exists i :: OccursAt(s, p, i)
    decreases |s|
  {
    if StartsWith(s, p) then
      assert OccursAt(s, p, 0);
      true
    else if |s| == 0 then
      false
    else
      var b := Contains(s[1..], p);
      assert b ==> exists i :: OccursAt(s, p, i) by {
        if b {
          var i :| OccursAt(s[1..], p, i);
          assert s[1..][i..i + |p|] == s[i + 1..i + 1 + |p|];
          assert OccursAt(s, p, i + 1);
        }
      }
      assert (exists i :: OccursAt(s, p, i)) ==> b by {
        if exists i :: OccursAt(s, p, i) {
          var i :| OccursAt(s, p, i);
          assert i != 0;
          assert s[1..][i - 1..i - 1 + |p|] == s[i..i + |p|];
          assert OccursAt(s[1..], p, i - 1);
        }
      }
      b
  }

  /** An occurrence inside a piece is an occurrence in any string that holds the piece. */
  lemma ContainsInContext(a: string, x: string, b: string, p: string)
    requires Contains(x, p)
    ensures Contains(a + x + b, p)
  {
    var i :| OccursAt(x, p, i);
    var s := a + x + b;
    assert s[|a| + i..|a| + i + |p|] == x[i..i + |p|];
    assert OccursAt(s, p, |a| + i);
  }

  /** An occurrence in the last of three middle pieces is an occurrence in the whole, however it is bracketed. */
  lemma ContainsInMiddle(a: string, v: string, x: string, c: string, p: string)
    requires Contains(x, p)
    ensures Contains(a + (v + x) + c, p)
  {
    ContainsInContext(a + v, x, c, p);
    assert a + v + x + c == a + (v + x) + c;
  }

  /** Dropping the first character cannot create an occurrence. */
  lemma NotContainsTail(s: string, p: string)
    requires |s| > 0 && !Contains(s, p)
    ensures !Contains(s[1..], p)
  {
    assert s[..1] + s[1..] + "" == s;
  }

  /** A string cannot hold a pattern that uses a character the string lacks. */
  lemma MissingCharacter(s: string, p: string, c: char)
    requires c in p && c !in s
    ensures !Contains(s, p)
  {
  }

  /** `sep.join(parts)` */
  function Join(parts: seq<string>, sep: string): (s: string)
    ensures |parts| == 1 ==> s == parts[0]
  {
    if |parts| == 0 then ""
    else if |parts| == 1 then parts[0]
    else parts[0] + sep + Join(parts[1..], sep)
  }

  /** Prepending characters to the first part prepends them to the joined string. */
  lemma {:induction false} JoinPrependFirst(c: string, parts: seq<string>, sep: string)
    requires |parts| >= 1
    ensures Join([c + parts[0]] + parts[1..], sep) == c + Join(parts, sep)
  {
    var parts' := [c + parts[0]] + parts[1..];
    assert parts'[1..] == parts[1..];
  }

  /** Joining a concatenation of two non-empty lists puts the separator between the halves. */
  lemma {:induction false} JoinAppend(xs: seq<string>, ys: seq<string>, sep: string)
    requires |xs| >= 1 && |ys| >= 1
    ensures Join(xs + ys, sep) == Join(xs, sep) + sep + Join(ys, sep)
    decreases |xs|
  {
    if |xs| == 1 {
      assert (xs + ys)[1..] == ys;
    } else {
      assert (xs + ys)[1..] == xs[1..] + ys;
      JoinAppend(xs[1..], ys, sep);
    }
  }

  /** An occurrence in one part is an occurrence in the joined string. */
  lemma {:induction false} ContainsInJoin(parts: seq<string>, sep: string, k: nat, p: string)
    requires k < |parts| && Contains(parts[k], p)
    ensures Contains(Join(parts, sep), p)
    decreases |parts|
  {
    if |parts| > 1 {
      if k == 0 {
        ContainsInContext("", parts[0], sep + Join(parts[1..], sep), p);
        assert "" + parts[0] + (sep + Join(parts[1..], sep)) == Join(parts, sep);
      } else {
        ContainsInJoin(parts[1..], sep, k - 1, p);
        ContainsInContext(parts[0] + sep, Join(parts[1..], sep), "", p);
        assert parts[0] + sep + Join(parts[1..], sep) + "" == Join(parts, sep);
      }
    }
  }

  /**
   `s.split(sep)` for a single separator character: the pieces between the
   separators, in order. There is always at least one piece (`"".split("\n") == [""]`),
   no piece holds the separator, and joining the pieces back gives `s`.
   */
  function Split(s: string, sep: char): (parts: seq<string>)
    ensures |parts| >= 1
    ensures forall k :: 0 <= k < |parts| ==> sep !in parts[k]
    ensures Join(parts, [sep]) == s
  {
    if |s| == 0 then
      [""]
    else
      var rest := Split(s[1..], sep);
      if s[0] == sep then
        assert [sep] + Join(rest, [sep]) == s;
        [""] + rest
      else
        JoinPrependFirst([s[0]], rest, [sep]);
        [[s[0]] + rest[0]] + rest[1..]
  }

  /** A string without the separator splits into itself alone. */
  lemma {:induction false} SplitNoSeparator(s: string, sep: char)
    requires sep !in s
    ensures Split(s, sep) == [s]
    decreases |s|
  {
    if |s| > 0 {
      SplitNoSeparator(s[1..], sep);
    }
  }

  /** The text before the first separator becomes the first piece. */
  lemma {:induction false} SplitAtFirst(x: string, sep: char, rest: string)
    requires sep !in x
    ensures Split(x + [sep] + rest, sep) == [x] + Split(rest, sep)
    decreases |x|
  {
    var s := x + [sep] + rest;
    if |x| == 0 {
      assert s[1..] == rest;
    } else {
      assert s[1..] == x[1..] + [sep] + rest;
      SplitAtFirst(x[1..], sep, rest);
      assert [x[0]] + x[1..] == x;
    }
  }

  /** `split` undoes `join` when no piece holds the separator. */
  lemma {:induction false} SplitJoin(parts: seq<string>, sep: char)
    requires |parts| >= 1
    requires forall k :: 0 <= k < |parts| ==> sep !in parts[k]
    ensures Split(Join(parts, [sep]), sep) == parts
    decreases |parts|
  {
    if |parts| == 1 {
      SplitNoSeparator(parts[0], sep);
    } else {
      SplitJoin(parts[1..], sep);
      SplitAtFirst(parts[0], sep, Join(parts[1..], [sep]));
      assert [parts[0]] + parts[1..] == parts;
    }
  }

  /**
   `s.replace(pat, "")`: one left-to-right pass that drops every
   non-overlapping occurrence of `pat`.
   */
  function RemoveAll(s: string, pat: string): (r: string)
    requires |pat| > 0
    ensures |r| <= |s|
    decreases |s|
  {
    if |s| < |pat| then
      s
    else if s[..|pat|] == pat then
      RemoveAll(s[|pat|..], pat)
    else
      [s[0]] + RemoveAll(s[1..], pat)
  }

  /** A string without an occurrence is left as it is. */
  lemma {:induction false} RemoveAllAbsent(s: string, pat: string)
    requires |pat| > 0 && !Contains(s, pat)
    ensures RemoveAll(s, pat) == s
    decreases |s|
  {
    if |s| >= |pat| {
      assert !OccursAt(s, pat, 0);
      NotContainsTail(s, pat);
      RemoveAllAbsent(s[1..], pat);
      assert [s[0]] + s[1..] == s;
    }
  }

  /** An occurrence at the very start of `a + pat + b`, with `a` non-empty, lies within `a` and the first `|pat| - 1` characters of `pat`. */
  lemma StartOccurrenceWithin(a: string, b: string, pat: string)
    requires |pat| > 0 && |a| > 0
    requires StartsWith(a + pat + b, pat)
    ensures Contains(a + pat[..|pat| - 1], pat)
  {
    var s := a + pat + b;
    var t := a + pat[..|pat| - 1];
    assert forall k :: 0 <= k < |pat| ==> t[k] == s[k];
    assert t[..|pat|] == pat;
    assert OccursAt(t, pat, 0);
  }

  /**
   An occurrence of `pat` is dropped and the text before it kept, when that text
   holds no occurrence of its own (not even one reaching into `pat`).
   */
  lemma {:induction false} RemoveAllOccurrence(a: string, b: string, pat: string)
    requires |pat| > 0
    requires !Contains(a + pat[..|pat| - 1], pat)
    ensures RemoveAll(a + pat + b, pat) == a + RemoveAll(b, pat)
    decreases |a|
  {
    var s := a + pat + b;
    if |a| == 0 {
      assert s[..|pat|] == pat && s[|pat|..] == b;
      assert RemoveAll(s, pat) == RemoveAll(b, pat);
    } else {
      assert !StartsWith(s, pat) by {
        if StartsWith(s, pat) {
          StartOccurrenceWithin(a, b, pat);
        }
      }
      assert !Contains(a[1..] + pat[..|pat| - 1], pat) by {
        NotContainsTail(a + pat[..|pat| - 1], pat);
        assert (a + pat[..|pat| - 1])[1..] == a[1..] + pat[..|pat| - 1];
      }
      assert |s| >= |pat| && s[..|pat|] != pat;
      assert RemoveAll(s, pat) == [s[0]] + RemoveAll(s[1..], pat);
      assert s[1..] == a[1..] + pat + b;
      RemoveAllOccurrence(a[1..], b, pat);
      var r := RemoveAll(b, pat);
      assert RemoveAll(s[1..], pat) == a[1..] + r;
      assert a == [a[0]] + a[1..];
      assert [a[0]] + (a[1..] + r) == ([a[0]] + a[1..]) + r;
    }
  }

  /** Python's `str.isspace` for one character (ASCII and Unicode white space). */
  predicate IsSpace(c: char) {
    c == ' ' || ('\t' <= c <= '\r') || ('\U{1C}' <= c <= '\U{1F}')
    || c == '\U{85}' || c == '\U{A0}' || c == '\U{1680}'
    || ('\U{2000}' <= c <= '\U{200A}') || c == '\U{2028}' || c == '\U{2029}'
    || c == '\U{202F}' || c == '\U{205F}' || c == '\U{3000}'
  }

  /** Every character of `s` is white space. */
  predicate AllSpace(s: string) {
    forall k :: 0 <= k < |s| ==> IsSpace(s[k])
  }

  /** `s.lstrip()`: the suffix of `s` left after its leading white space. */
  function LStrip(s: string): (r: string)
    ensures |r| <= |s| && r == s[|s| - |r|..]
    ensures AllSpace(s[..|s| - |r|])
    ensures r != [] ==> !IsSpace(r[0])
    decreases |s|
  {
    if |s| > 0 && IsSpace(s[0]) then
      var r := LStrip(s[1..]);
      assert s[..|s| - |r|] == [s[0]] + s[1..][..|s| - 1 - |r|];
      r
    else
      s
  }

  /** `s.rstrip()`: the prefix of `s` left after its trailing white space. */
  function RStrip(s: string): (r: string)
    ensures |r| <= |s| && r == s[..|r|]
    ensures AllSpace(s[|r|..])
    ensures r != [] ==> !IsSpace(r[|r| - 1])
    decreases |s|
  {
    if |s| > 0 && IsSpace(s[|s| - 1]) then
      var r := RStrip(s[..|s| - 1]);
      assert s[|r|..] == s[..|s| - 1][|r|..] + [s[|s| - 1]];
      r
    else
      s
  }

  /**
   `s.strip()`: the slice `s[i..j]` with only white space before `i` and after `j`,
   and no white space at either end of the slice.
   */
  function Strip(s: string): (r: string)
    ensures exists i, j :: 0 <= i <= j <= |s| && r == s[i..j] && AllSpace(s[..i]) && AllSpace(s[j..])
    ensures r != [] ==> !IsSpace(r[0]) && !IsSpace(r[|r| - 1])
  {
    var l := LStrip(s);
    var r := RStrip(l);
    var i := |s| - |l|;
    assert r == s[i..i + |r|];
    assert s[i + |r|..] == l[|r|..];
    r
  }

  /** Leading white space in front of a non-space character is exactly what `lstrip` drops. */
  lemma {:induction false} LStripSpacePrefix(w: string, t: string)
    requires AllSpace(w)
    requires t != [] && !IsSpace(t[0])
    ensures LStrip(w + t) == t
    decreases |w|
  {
    if |w| > 0 {
      assert (w + t)[1..] == w[1..] + t;
      LStripSpacePrefix(w[1..], t);
    }
  }

  /** Trailing white space after a non-space character is exactly what `rstrip` drops. */
  lemma {:induction false} RStripSpaceSuffix(t: string, w: string)
    requires AllSpace(w)
    requires t != [] && !IsSpace(t[|t| - 1])
    ensures RStrip(t + w) == t
    decreases |w|
  {
    if |w| > 0 {
      assert (t + w)[..|t + w| - 1] == t + w[..|w| - 1];
      RStripSpaceSuffix(t, w[..|w| - 1]);
    }
  }

  /** Stripping a string framed by white space gives back the framed text, untouched. */
  lemma StripFramed(w1: string, x: string, w2: string)
    requires AllSpace(w1) && AllSpace(w2)
    requires x != [] && !IsSpace(x[0]) && !IsSpace(x[|x| - 1])
    ensures Strip(w1 + x + w2) == x
  {
    assert w1 + x + w2 == w1 + (x + w2);
    LStripSpacePrefix(w1, x + w2);
    RStripSpaceSuffix(x, w2);
  }
}
