/** The JavaScript string primitives the component relies on:
    `trim`, `toLowerCase`, `includes` and `Array.prototype.join`. */
module Strings {

  /** The characters `String.prototype.trim` strips: the WhiteSpace and
      LineTerminator code points of ECMAScript. */
  predicate IsWhitespace(c: char) {
    c == '\t' || c == '\n' || c == '\U{000B}' || c == '\U{000C}' || c == '\r' || c == ' '
    || c == '\U{00A0}' || c == '\U{1680}' || ('\U{2000}' <= c <= '\U{200A}')
    || c == '\U{2028}' || c == '\U{2029}' || c == '\U{202F}' || c == '\U{205F}'
    || c == '\U{3000}' || c == '\U{FEFF}'
  }

  predicate AllWhitespace(s: string) {
    forall i :: 0 <= i < |s| ==> IsWhitespace(s[i])
  }

  /** Drops leading whitespace: the result is the longest suffix of `s`
      that does not start with whitespace, and what was dropped is all whitespace. */
  function TrimStart(s: string): (r: string)
    ensures |r| <= |s| && r == s[|s| - |r|..]
    ensures r == [] || !IsWhitespace(r[0])
    ensures AllWhitespace(s[..|s| - |r|])
  {
    if s != [] && IsWhitespace(s[0]) then
      var r := TrimStart(s[1..]);
      DropLeadingWhitespace(s, r);
      r
    else s
  }

  /** Dropping one more leading whitespace character keeps `r` a suffix of `s`
      with only whitespace before it. */
  lemma {:induction false} DropLeadingWhitespace(s: string, r: string)
    requires s != [] && IsWhitespace(s[0]) && |r| <= |s| - 1
    requires r == s[1..][|s| - 1 - |r|..] && AllWhitespace(s[1..][..|s| - 1 - |r|])
    ensures r == s[|s| - |r|..] && AllWhitespace(s[..|s| - |r|])
  {
    var k := |s| - |r|;
    assert s[1..][k - 1..] == s[k..];
    forall n | 0 <= n < k ensures IsWhitespace(s[..k][n]) {
      if n > 0 { assert s[..k][n] == s[1..][..k - 1][n - 1]; }
    }
  }

  /** Drops trailing whitespace: the result is the longest prefix of `s`
      that does not end in whitespace, and what was dropped is all whitespace. */
  function TrimEnd(s: string): (r: string)
    ensures |r| <= |s| && r == s[..|r|]
    ensures r == [] || !IsWhitespace(r[|r| - 1])
    ensures AllWhitespace(s[|r|..])
  {
    if s != [] && IsWhitespace(s[|s| - 1]) then
      var r := TrimEnd(s[..|s| - 1]);
      DropTrailingWhitespace(s, r);
      r
    else s
  }

  /** Dropping one more trailing whitespace character keeps `r` a prefix of `s`
      with only whitespace after it. */
  lemma {:induction false} DropTrailingWhitespace(s: string, r: string)
    requires s != [] && IsWhitespace(s[|s| - 1]) && |r| <= |s| - 1
    requires r == s[..|s| - 1][..|r|] && AllWhitespace(s[..|s| - 1][|r|..])
    ensures r == s[..|r|] && AllWhitespace(s[|r|..])
  {
    var k := |r|;
    forall n | 0 <= n < |s| - k ensures IsWhitespace(s[k..][n]) {
      if n < |s| - 1 - k { assert s[k..][n] == s[..|s| - 1][k..][n]; }
    }
  }

  /** `String.prototype.trim`. It is empty exactly when `s` is all whitespace;
      `TrimIsSliceOf` states what it keeps. */
  function Trim(s: string): (r: string)
    ensures |r| <= |s|
    ensures r == [] <==> AllWhitespace(s)
    ensures r != [] ==> !IsWhitespace(r[0]) && !IsWhitespace(r[|r| - 1])
  {
    TrimBothEnds(s);
    TrimEnd(TrimStart(s))
  }

  /** `Trim(s)` is the slice of `s` left once the whitespace on either side of
      it is removed, and nothing else: the slice has no whitespace at its ends. */
  lemma {:induction false} TrimIsSliceOf(s: string)
    ensures exists i, j ::
      0 <= i <= j <= |s| && Trim(s) == s[i..j] && AllWhitespace(s[..i]) && AllWhitespace(s[j..])
    ensures Trim(s) != [] ==> !IsWhitespace(Trim(s)[0]) && !IsWhitespace(Trim(s)[|Trim(s)| - 1])
  {
    var t := TrimStart(s);
    var r := TrimEnd(t);
    var i := |s| - |t|;
    var j := i + |r|;
    PrefixOfSuffix(s, i, j, t, r);
    assert AllWhitespace(s[j..]);
    SliceBetweenWhitespace(s, i, j, Trim(s));
  }

  /** Names the slice bounds as a witness. */
  lemma {:induction false} SliceBetweenWhitespace(s: string, i: int, j: int, r: string)
    requires 0 <= i <= j <= |s| && r == s[i..j] && AllWhitespace(s[..i]) && AllWhitespace(s[j..])
    ensures exists i', j' ::
      0 <= i' <= j' <= |s| && r == s[i'..j'] && AllWhitespace(s[..i']) && AllWhitespace(s[j'..])
  {
  }

  /** A prefix of a suffix is a slice, and what follows it is the rest of the string. */
  lemma {:induction false} PrefixOfSuffix(s: string, i: int, j: int, t: string, r: string)
    requires 0 <= i <= j <= |s| && t == s[i..] && r == t[..j - i]
    ensures r == s[i..j] && t[j - i..] == s[j..]
  {
  }

  lemma {:induction false} TrimBothEnds(s: string)
    ensures var r := TrimEnd(TrimStart(s));
      (r == [] <==> AllWhitespace(s))
      && (r != [] ==> !IsWhitespace(r[0]) && !IsWhitespace(r[|r| - 1]))
  {
  }

  /** A non-whitespace prefix survives `TrimEnd` of any extension. */
  lemma {:induction false} TrimEndKeepsPrefix(x: string, y: string)
    requires x != [] && !IsWhitespace(x[|x| - 1])
    ensures |x| <= |TrimEnd(x + y)| && TrimEnd(x + y)[..|x|] == x
  {
    var r := TrimEnd(x + y);
    assert !IsWhitespace((x + y)[|x| - 1]);
  }

  /** Trailing whitespace after a non-whitespace end is exactly what `TrimEnd` removes. */
  lemma {:induction false} TrimEndDropsWhitespaceTail(x: string, w: string)
    requires x != [] && !IsWhitespace(x[|x| - 1])
    requires AllWhitespace(w)
    ensures TrimEnd(x + w) == x
  {
    var r := TrimEnd(x + w);
    TrimEndKeepsPrefix(x, w);
    assert (x + w)[..|x|] == x;
  }

  /** Whitespace appended to any string is all that `TrimEnd` removes of it. */
  lemma {:induction false} TrimEndIgnoresWhitespaceTail(y: string, w: string)
    requires AllWhitespace(w)
    ensures TrimEnd(y + w) == TrimEnd(y)
    decreases |w|
  {
    if w == [] {
      assert y + w == y;
    } else {
      var w' := w[..|w| - 1];
      assert (y + w)[..|y + w| - 1] == y + w';
      assert IsWhitespace((y + w)[|y + w| - 1]);
      TrimEndIgnoresWhitespaceTail(y, w');
    }
  }

  /** When `z` is not all whitespace, `TrimEnd` of `x + z` trims only `z`. */
  lemma {:induction false} TrimEndAfterPrefix(x: string, z: string)
    requires TrimEnd(z) != []
    ensures TrimEnd(x + z) == x + TrimEnd(z)
    decreases |z|
  {
    assert z != [];
    assert (x + z)[|x + z| - 1] == z[|z| - 1];
    if IsWhitespace(z[|z| - 1]) {
      var z' := z[..|z| - 1];
      assert (x + z)[..|x + z| - 1] == x + z';
      TrimEndAfterPrefix(x, z');
    }
  }

  /** `TrimEnd` of a prefix, a string that is not all whitespace and a
      whitespace tail trims only the middle part. */
  lemma {:induction false} TrimEndOfMiddle(x: string, z: string, w: string)
    requires TrimEnd(z) != [] && AllWhitespace(w)
    ensures TrimEnd(x + z + w) == x + TrimEnd(z)
  {
    TrimEndIgnoresWhitespaceTail(x + z, w);
    TrimEndAfterPrefix(x, z);
  }

  /** A string with a visible character somewhere is not trimmed away. */
  lemma {:induction false} TrimEndKeepsVisible(s: string, k: int)
    requires 0 <= k < |s| && !IsWhitespace(s[k])
    ensures TrimEnd(s) != []
  {
  }

  /** A string that already starts with non-whitespace is left alone by `TrimStart`. */
  lemma {:induction false} TrimStartNoLeadingWhitespace(s: string)
    requires s != [] && !IsWhitespace(s[0])
    ensures TrimStart(s) == s
  {
  }

  /** ASCII case mapping, the part of `toLowerCase` the keyword table needs. */
  function ToLowerChar(c: char): (r: char)
    ensures 'A' <= c <= 'Z' ==> 'a' <= r <= 'z' && r as int - 'a' as int == c as int - 'A' as int
    ensures !('A' <= c <= 'Z') ==> r == c
  {
    if 'A' <= c <= 'Z' then (c as int - 'A' as int + 'a' as int) as char else c
  }

  function ToLower(s: string): (r: string)
    ensures |r| == |s|
    ensures forall i :: 0 <= i < |s| ==> r[i] == ToLowerChar(s[i])
  {
    seq(|s|, i requires 0 <= i < |s| => ToLowerChar(s[i]))
  }

  predicate StartsWith(s: string, k: string) {
    |k| <= |s| && s[..|k|] == k
  }

  /** `k` occurs in `s` starting at index `i`. */
  predicate OccursAt(s: string, k: string, i: int) {
    0 <= i && i + |k| <= |s| && s[i..i + |k|] == k
  }

  /** `String.prototype.includes`, as a left-to-right scan. */
  function Contains(s: string, k: string): (b: bool)
    decreases |s|
  {
    StartsWith(s, k) || (s != [] && Contains(s[1..], k))
  }

  /** The scan finds `k` exactly when `k` occurs somewhere in `s`. */
  lemma {:induction false} ContainsIff(s: string, k: string)
    ensures Contains(s, k) <==> exists i :: OccursAt(s, k, i)
    decreases |s|
  {
    if StartsWith(s, k) {
      assert OccursAt(s, k, 0);
    } else if s == [] {
      assert OccursAt(s, k, 0) <==> k == [];
    } else {
      ContainsIff(s[1..], k);
      if exists i :: OccursAt(s[1..], k, i) {
        var i :| OccursAt(s[1..], k, i);
        assert s[1..][i..i + |k|] == s[i + 1..i + 1 + |k|];
        assert OccursAt(s, k, i + 1);
      }
      if exists i :: OccursAt(s, k, i) {
        var i :| OccursAt(s, k, i);
        assert i != 0;
        assert s[1..][i - 1..i - 1 + |k|] == s[i..i + |k|];
        assert OccursAt(s[1..], k, i - 1);
      }
    }
  }

  /** A keyword longer than the text never occurs in it. */
  lemma {:induction false} ShorterNeverContains(s: string, k: string)
    requires |s| < |k|
    ensures !Contains(s, k)
    decreases |s|
  {
    if s != [] {
      ShorterNeverContains(s[1..], k);
    }
  }

  /** `Array.prototype.join` on strings: "" for no elements, the elements
      separated by `sep` otherwise. */
  function Join(xs: seq<string>, sep: string): (r: string)
    ensures xs == [] ==> r == ""
    ensures |xs| == 1 ==> r == xs[0]
  {
    if |xs| == 0 then ""
    else if |xs| == 1 then xs[0]
    else xs[0] + sep + Join(xs[1..], sep)
  }

  /** `join` accumulates from left to right: one more element adds the
      separator and that element at the end. */
  lemma {:induction false} JoinSnoc(xs: seq<string>, x: string, sep: string)
    requires xs != []
    ensures Join(xs + [x], sep) == Join(xs, sep) + sep + x
    decreases |xs|
  {
    if |xs| == 1 {
      assert (xs + [x])[1..] == [x];
    } else {
      assert (xs + [x])[1..] == xs[1..] + [x];
      JoinSnoc(xs[1..], x, sep);
    }
  }

  /** The joined string starts with the first element, followed by the
      separator when there are more. */
  lemma {:induction false} JoinStartsWithFirst(xs: seq<string>, sep: string)
    requires xs != []
    ensures |xs[0]| <= |Join(xs, sep)| && Join(xs, sep)[..|xs[0]|] == xs[0]
    ensures |xs| >= 2 ==>
      |xs[0] + sep| <= |Join(xs, sep)| && Join(xs, sep)[..|xs[0] + sep|] == xs[0] + sep
  {
    if |xs| >= 2 {
      var j := Join(xs[1..], sep);
      assert Join(xs, sep) == (xs[0] + sep) + j;
    }
  }

  /** The joined string ends with the last element. */
  lemma {:induction false} JoinEndsWithLast(xs: seq<string>, sep: string)
    requires xs != []
    ensures |xs[|xs| - 1]| <= |Join(xs, sep)|
    ensures Join(xs, sep)[|Join(xs, sep)| - |xs[|xs| - 1]|..] == xs[|xs| - 1]
  {
    if |xs| > 1 {
      JoinEndsWithLast(xs[1..], sep);
      var j := Join(xs[1..], sep);
      assert Join(xs, sep) == (xs[0] + sep) + j;
    }
  }
}
