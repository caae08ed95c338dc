/**
 * The JavaScript string operations the core uses: `trim`, `toLowerCase`,
 * `includes`, `split` and `Array.prototype.join`. Whitespace and case
 * mapping are the ASCII subsets of the Unicode tables JavaScript uses.
 */
module Text {

  /** The ASCII characters `String.prototype.trim` strips. */
  predicate IsWhitespace(c: char) {
    c == ' ' || c == '\t' || c == '\n' || c == '\r' || c == '\U{B}' || c == '\U{C}'
  }

  /** Leading whitespace removed: a suffix of `s` that starts with a non-blank. */
  function TrimStart(s: string): (r: string)
    ensures |r| <= |s| && r == s[|s| - |r|..]
    ensures r == "" || !IsWhitespace(r[0])
    ensures forall i :: 0 <= i < |s| - |r| ==> IsWhitespace(s[i])
  {
    if s != "" && IsWhitespace(s[0]) then
      var r := TrimStart(s[1..]);
      assert r == s[|s| - |r|..] by { assert s[1..][|s[1..]| - |r|..] == s[|s| - |r|..]; }
      r
    else s
  }

  /** Trailing whitespace removed: a prefix of `s` that ends with a non-blank. */
  function TrimEnd(s: string): (r: string)
    ensures |r| <= |s| && r == s[..|r|]
    ensures r == "" || !IsWhitespace(r[|r| - 1])
    ensures forall i :: |r| <= i < |s| ==> IsWhitespace(s[i])
  {
    if s != "" && IsWhitespace(s[|s| - 1]) then TrimEnd(s[..|s| - 1]) else s
  }

  /** `s.trim()`. */
  function Trim(s: string): (r: string)
    ensures r == "" || (!IsWhitespace(r[0]) && !IsWhitespace(r[|r| - 1]))
    ensures r == "" <==> forall i :: 0 <= i < |s| ==> IsWhitespace(s[i])
  {
    var t := TrimStart(s);
    var r := TrimEnd(t);
    r
  }

  /** `Trim(s)` is the slice of `s` left once the blank run at each end is cut off. */
  lemma TrimIsInnerSlice(s: string)
    ensures exists i, j :: 0 <= i <= j <= |s| && Trim(s) == s[i..j] &&
                           (forall k :: 0 <= k < i ==> IsWhitespace(s[k])) &&
                           (forall k :: j <= k < |s| ==> IsWhitespace(s[k]))
  {
    var t := TrimStart(s);
    var r := TrimEnd(t);
    var i := |s| - |t|;
    assert t == s[i..] && r == t[..|r|];
    assert r == s[i..i + |r|];
    forall k | i + |r| <= k < |s|
      ensures IsWhitespace(s[k])
    {
      assert s[k] == t[k - i];
    }
    assert 0 <= i <= i + |r| <= |s| && Trim(s) == s[i..i + |r|];
  }

  /** Trimming a trimmed string changes nothing. */
  lemma TrimIdempotent(s: string)
    ensures Trim(Trim(s)) == Trim(s)
  {
    var r := Trim(s);
    assert TrimStart(r) == r;
    assert TrimEnd(r) == r;
  }

  /** A string with non-blank ends is its own trim. */
  lemma TrimFixed(s: string)
    requires s != "" && !IsWhitespace(s[0]) && !IsWhitespace(s[|s| - 1])
    ensures Trim(s) == s
  {
    assert TrimStart(s) == s;
    assert TrimEnd(s) == s;
  }

  /** ASCII `toLowerCase` on one character. */
  function LowerChar(c: char): char {
    if 'A' <= c <= 'Z' then (c as int + 32) as char else c
  }

  /** `s.toLowerCase()`: characterwise, length-preserving. */
  function ToLower(s: string): (r: string)
    ensures |r| == |s|
    ensures forall i :: 0 <= i < |s| ==> r[i] == LowerChar(s[i])
  {
    if s == "" then "" else [LowerChar(s[0])] + ToLower(s[1..])
  }

  /** Lower-casing twice is lower-casing once. */
  lemma ToLowerIdempotent(s: string)
    ensures ToLower(ToLower(s)) == ToLower(s)
  {
    var once := ToLower(s);
    forall i | 0 <= i < |s|
      ensures LowerChar(once[i]) == once[i]
    {
    }
  }

  /** `s.includes(sub)`: `sub` occurs in `s` at some position. */
  predicate Contains(s: string, sub: string)
    decreases |s|
  {
    sub <= s || (s != "" && Contains(s[1..], sub))
  }

  /** `sub` occurs in `s` starting at index `k`. */
  predicate OccursAt(s: string, sub: string, k: int) {
    0 <= k <= |s| - |sub| && s[k..k + |sub|] == sub
  }

  /** `Contains` agrees with the positional definition of a substring. */
  lemma {:induction false} ContainsIffOccurs(s: string, sub: string)
    ensures Contains(s, sub) <==> exists k :: OccursAt(s, sub, k)
    decreases |s|
  {
    if sub <= s {
      assert OccursAt(s, sub, 0);
    } else if s == "" {
    } else {
      ContainsIffOccurs(s[1..], sub);
      if exists k :: OccursAt(s, sub, k) {
        var k :| OccursAt(s, sub, k);
        assert k != 0 by { assert s[..|sub|] == s[0..0 + |sub|]; }
        OccursShift(s, sub, k - 1);
      }
      if exists k :: OccursAt(s[1..], sub, k) {
        var k :| OccursAt(s[1..], sub, k);
        OccursShift(s, sub, k);
      }
    }
  }

  /** An occurrence past the first character is an occurrence in the tail. */
  lemma OccursShift(s: string, sub: string, k: nat)
    requires s != ""
    ensures OccursAt(s, sub, k + 1) <==> OccursAt(s[1..], sub, k)
  {
    if k + |sub| <= |s[1..]| {
      var u, v := s[k + 1..k + 1 + |sub|], s[1..][k..k + |sub|];
      forall i | 0 <= i < |sub|
        ensures u[i] == v[i]
      {
        assert v[i] == s[1..][k + i] == s[k + 1 + i];
      }
      assert u == v;
    }
  }

  /** Every string includes the empty string. */
  lemma ContainsEmpty(s: string)
    ensures Contains(s, "")
  {
  }

  /**
   * `s.split(sep)` for a non-empty separator: scanning left to right, each
   * leftmost occurrence of `sep` ends a piece. The result is never empty.
   */
  function Split(s: string, sep: string): (r: seq<string>)
    requires sep != ""
    ensures |r| >= 1
    ensures r[0] <= s
    decreases |s|
  {
    if sep <= s then [""] + Split(s[|sep|..], sep)
    else if s == "" then [""]
    else
      var rest := Split(s[1..], sep);
      [[s[0]] + rest[0]] + rest[1..]
  }

  /** A string that does not contain `sep` is a single piece. */
  lemma {:induction false} SplitWithout(t: string, sep: string)
    requires sep != "" && !Contains(t, sep)
    ensures Split(t, sep) == [t]
    decreases |t|
  {
    if t != "" {
      assert !(sep <= t);
      SplitWithout(t[1..], sep);
      assert [t[0]] + t[1..] == t;
    }
  }

  /**
   * For a one-character separator, `x + sep + t` has at least two pieces and
   * the last is `t` whenever `t` holds no separator.
   */
  lemma {:induction false} SplitLastPiece(x: string, sep: string, t: string)
    requires |sep| == 1 && !Contains(t, sep)
    ensures |Split(x + sep + t, sep)| >= 2
    ensures Split(x + sep + t, sep)[|Split(x + sep + t, sep)| - 1] == t
    decreases |x|
  {
    var s := x + sep + t;
    if x == "" {
      assert sep <= s;
      assert s[|sep|..] == t;
      SplitWithout(t, sep);
    } else {
      assert s[1..] == x[1..] + sep + t;
      SplitLastPiece(x[1..], sep, t);
      if sep <= s {
        assert s[|sep|..] == s[1..];
      }
    }
  }

  /** `a` is a suffix of `s`. */
  predicate SuffixOf(a: string, s: string) {
    |a| <= |s| && s[|s| - |a|..] == a
  }

  /** A suffix of a tail of `s` is a suffix of `s`. */
  lemma SuffixOfTail(a: string, s: string, j: nat)
    requires j <= |s| && SuffixOf(a, s[j..])
    ensures SuffixOf(a, s)
  {
    assert s[|s| - |a|..] == s[j..][|s| - j - |a|..];
  }

  /** The last piece of a split is a suffix of the string. */
  lemma {:induction false} SplitLastIsSuffix(s: string, sep: string)
    requires sep != ""
    ensures SuffixOf(Split(s, sep)[|Split(s, sep)| - 1], s)
    decreases |s|
  {
    var r := Split(s, sep);
    if sep <= s {
      var t := s[|sep|..];
      SplitLastIsSuffix(t, sep);
      SplitSeparatorFirst(s, sep);
      var q := Split(t, sep);
      assert r[|r| - 1] == q[|q| - 1];
      SuffixOfTail(q[|q| - 1], s, |sep|);
    } else if s != "" {
      var t := s[1..];
      SplitLastIsSuffix(t, sep);
      SplitCharFirst(s, sep);
      var q := Split(t, sep);
      if |q| == 1 {
        JoinSplit(t, sep);
        assert r == [[s[0]] + t];
        assert [s[0]] + t == s;
      } else {
        assert r[|r| - 1] == q[|q| - 1];
        SuffixOfTail(q[|q| - 1], s, 1);
      }
    }
  }

  /** A string without the character `c` does not contain the one-character string `[c]`. */
  lemma NotContainsChar(t: string, c: char)
    requires c !in t
    ensures !Contains(t, [c])
  {
    forall k | 0 <= k < |t|
      ensures !OccursAt(t, [c], k)
    {
      assert t[k..k + 1][0] == t[k];
    }
    ContainsIffOccurs(t, [c]);
  }

  /** `parts.join(sep)`. */
  function Join(parts: seq<string>, sep: string): (r: string)
    ensures parts == [] ==> r == ""
    ensures |parts| == 1 ==> r == parts[0]
  {
    if |parts| == 0 then ""
    else if |parts| == 1 then parts[0]
    else parts[0] + sep + Join(parts[1..], sep)
  }

  /** Joining one more piece in front adds it and a separator. */
  lemma JoinCons(x: string, rest: seq<string>, sep: string)
    requires rest != []
    ensures Join([x] + rest, sep) == x + sep + Join(rest, sep)
  {
    assert ([x] + rest)[1..] == rest;
  }

  /** Joining the pieces of a split restores the string, for every string. */
  lemma {:induction false} JoinSplit(s: string, sep: string)
    requires sep != ""
    ensures Join(Split(s, sep), sep) == s
    decreases |s|
  {
    if sep <= s {
      JoinSplit(s[|sep|..], sep);
      JoinSplitSeparatorFirst(s, sep);
    } else if s != "" {
      JoinSplit(s[1..], sep);
      JoinSplitCharFirst(s, sep);
    }
  }

  lemma JoinSplitSeparatorFirst(s: string, sep: string)
    requires sep != "" && sep <= s
    requires Join(Split(s[|sep|..], sep), sep) == s[|sep|..]
    ensures Join(Split(s, sep), sep) == s
  {
    var rest := Split(s[|sep|..], sep);
    SplitSeparatorFirst(s, sep);
    JoinAfterEmpty(s, sep, rest);
  }

  lemma SplitCharFirst(s: string, sep: string)
    requires sep != "" && !(sep <= s) && s != ""
    ensures Split(s, sep) == [[s[0]] + Split(s[1..], sep)[0]] + Split(s[1..], sep)[1..]
  {
  }

  lemma SplitSeparatorFirst(s: string, sep: string)
    requires sep != "" && sep <= s
    ensures Split(s, sep) == [""] + Split(s[|sep|..], sep)
  {
  }

  lemma JoinAfterEmpty(s: string, sep: string, rest: seq<string>)
    requires sep != "" && sep <= s && rest != []
    requires Join(rest, sep) == s[|sep|..]
    ensures Join([""] + rest, sep) == s
  {
    JoinCons("", rest, sep);
    assert s == s[..|sep|] + s[|sep|..];
    assert s[..|sep|] == sep;
    assert "" + sep == sep;
  }

  lemma JoinSplitCharFirst(s: string, sep: string)
    requires sep != "" && !(sep <= s) && s != ""
    requires Join(Split(s[1..], sep), sep) == s[1..]
    ensures Join(Split(s, sep), sep) == s
  {
    SplitCharFirst(s, sep);
    JoinPrefixFirst(s[0], Split(s[1..], sep), sep);
    assert s == [s[0]] + s[1..];
  }

  /** Putting a character in front of the first piece puts it in front of the join. */
  lemma JoinPrefixFirst(c: char, parts: seq<string>, sep: string)
    requires parts != []
    ensures Join([[c] + parts[0]] + parts[1..], sep) == [c] + Join(parts, sep)
  {
    var head := [c] + parts[0];
    if |parts| == 1 {
      assert [head] + parts[1..] == [head];
    } else {
      var tail := parts[1..];
      JoinCons(head, tail, sep);
      JoinCons(parts[0], tail, sep);
      assert parts == [parts[0]] + tail;
      assert head + sep + Join(tail, sep) == [c] + (parts[0] + sep + Join(tail, sep));
    }
  }
}
