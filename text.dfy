/**
 * The string primitives the views rely on: `toLowerCase`, `includes`, `trim`,
 * `indexOf` and `replace` with a string pattern, as ECMAScript defines them,
 * except that case folding covers the ASCII letters only.
 */
module Text {

  /** `c` lower-cased; letters outside A-Z are left as they are. */
  function LowerChar(c: char): (r: char)
    ensures 'A' <= c <= 'Z' ==> 'a' <= r <= 'z' && r as int - c as int == 32
    ensures !('A' <= c <= 'Z') ==> r == c
  {
    if 'A' <= c <= 'Z' then (c as int + 32) as char else c
  }

  /** `s.toLowerCase()`, character by character. */
  function Lower(s: string): (r: string)
    ensures |r| == |s|
  {
    seq(|s|, i requires 0 <= i < |s| => LowerChar(s[i]))
  }

  /** `sub` occurs in `s` starting at position `i`. */
  predicate OccursAt(s: string, sub: string, i: nat) {
    i + |sub| <= |s| && s[i..i + |sub|] == sub
  }

  /** `s.includes(sub)`: `sub` occurs in `s` at some position. */
  predicate Contains(s: string, sub: string) {
    exists i: nat | i <= |s| :: OccursAt(s, sub, i)
  }

  /** Every string contains the empty string, so an empty search matches everything. */
  lemma ContainsEmpty(s: string)
    ensures Contains(s, "")
  {
    assert OccursAt(s, "", 0);
  }

  /** A string contains itself. */
  lemma ContainsSelf(s: string)
    ensures Contains(s, s)
  {
    assert OccursAt(s, s, 0);
  }

  /** A string in which the first character of `sub` never appears does not contain `sub`. */
  lemma NotContainedWithoutFirstChar(s: string, sub: string)
    requires sub != []
    requires forall k :: 0 <= k < |s| ==> s[k] != sub[0]
    ensures !Contains(s, sub)
  {
    forall i: nat | i <= |s|
      ensures !OccursAt(s, sub, i)
    {
      if i + |sub| <= |s| {
        assert s[i..i + |sub|][0] == s[i];
      }
    }
  }

  /**
   * The characters `String.prototype.trim` removes: ECMAScript's WhiteSpace
   * (tab, vertical tab, form feed, the byte order mark and every space
   * separator) and LineTerminator (LF, CR, U+2028, U+2029).
   */
  predicate IsWhiteSpace(c: char) {
    || c == '\t' || c == '\n' || c == '\U{B}' || c == '\U{C}' || c == '\r'
    || c == ' ' || c == '\U{A0}' || c == '\U{1680}'
    || ('\U{2000}' <= c <= '\U{200A}')
    || c == '\U{2028}' || c == '\U{2029}' || c == '\U{202F}' || c == '\U{205F}'
    || c == '\U{3000}' || c == '\U{FEFF}'
  }

  /** `s` without its leading white space. */
  function TrimStart(s: string): string {
    if s != [] && IsWhiteSpace(s[0]) then TrimStart(s[1..]) else s
  }

  /** `TrimStart` keeps a suffix of `s`. */
  lemma {:induction false} TrimStartSuffix(s: string)
    ensures |TrimStart(s)| <= |s| && TrimStart(s) == s[|s| - |TrimStart(s)|..]
  {
    if s != [] && IsWhiteSpace(s[0]) {
      TrimStartSuffix(s[1..]);
      assert s[1..][|s| - 1 - |TrimStart(s[1..])|..] == s[|s| - |TrimStart(s[1..])|..];
    }
  }

  /** What `TrimStart` drops is white space. */
  lemma {:induction false} TrimStartDropsWhiteSpace(s: string)
    ensures forall k :: 0 <= k < |s| - |TrimStart(s)| ==> IsWhiteSpace(s[k])
  {
    if s != [] && IsWhiteSpace(s[0]) {
      TrimStartDropsWhiteSpace(s[1..]);
      forall k | 0 < k < |s| - |TrimStart(s)|
        ensures IsWhiteSpace(s[k])
      {
        assert s[k] == s[1..][k - 1];
      }
    }
  }

  /** What `TrimStart` keeps does not start with white space. */
  lemma {:induction false} TrimStartVisible(s: string)
    ensures TrimStart(s) != [] ==> !IsWhiteSpace(TrimStart(s)[0])
  {
    if s != [] && IsWhiteSpace(s[0]) {
      TrimStartVisible(s[1..]);
    }
  }

  /** `TrimStart` keeps a suffix of `s` that starts on a visible character, and drops only white space. */
  lemma TrimStartSpec(s: string)
    ensures |TrimStart(s)| <= |s| && TrimStart(s) == s[|s| - |TrimStart(s)|..]
    ensures forall k :: 0 <= k < |s| - |TrimStart(s)| ==> IsWhiteSpace(s[k])
    ensures TrimStart(s) != [] ==> !IsWhiteSpace(TrimStart(s)[0])
  {
    TrimStartSuffix(s);
    TrimStartDropsWhiteSpace(s);
    TrimStartVisible(s);
  }

  /** `s` without its trailing white space. */
  function TrimEnd(s: string): string {
    if s != [] && IsWhiteSpace(s[|s| - 1]) then TrimEnd(s[..|s| - 1]) else s
  }

  /** `TrimEnd` keeps a prefix of `s` that ends on a visible character, and drops only white space. */
  lemma {:induction false} TrimEndSpec(s: string)
    ensures |TrimEnd(s)| <= |s| && TrimEnd(s) == s[..|TrimEnd(s)|]
    ensures forall k :: |TrimEnd(s)| <= k < |s| ==> IsWhiteSpace(s[k])
    ensures TrimEnd(s) != [] ==> !IsWhiteSpace(TrimEnd(s)[|TrimEnd(s)| - 1])
  {
    if s != [] && IsWhiteSpace(s[|s| - 1]) {
      var t := TrimEnd(s[..|s| - 1]);
      TrimEndSpec(s[..|s| - 1]);
      assert TrimEnd(s) == t;
      assert s[..|s| - 1][..|t|] == s[..|t|];
      forall k | |t| <= k < |s|
        ensures IsWhiteSpace(s[k])
      {
        if k < |s| - 1 {
          assert s[k] == s[..|s| - 1][k];
        }
      }
    } else {
      assert TrimEnd(s) == s;
    }
  }

  /** `s.trim()`: `s` without its leading and its trailing white space. */
  function Trim(s: string): string {
    TrimEnd(TrimStart(s))
  }

  /**
   * What `trim` promises: a contiguous piece of `s` that neither starts nor ends
   * with white space, and empty exactly when `s` is nothing but white space.
   */
  lemma TrimSpec(s: string)
    ensures Contains(s, Trim(s))
    ensures Trim(s) != [] ==> !IsWhiteSpace(Trim(s)[0]) && !IsWhiteSpace(Trim(s)[|Trim(s)| - 1])
    ensures Trim(s) == [] <==> forall k :: 0 <= k < |s| ==> IsWhiteSpace(s[k])
  {
    TrimStartSpec(s);
    TrimEndSpec(TrimStart(s));
    TrimIsSlice(s);
    TrimEmptyWhenBlank(s);
    TrimBlankWhenEmpty(s);
  }

  /** What `Trim` keeps is a contiguous piece of `s`. */
  lemma TrimIsSlice(s: string)
    ensures Contains(s, TrimEnd(TrimStart(s)))
  {
    var t := TrimStart(s);
    var r := TrimEnd(t);
    TrimStartSpec(s);
    TrimEndSpec(t);
    var i := |s| - |t|;
    assert s[i..] == t;
    assert t[..|r|] == r;
    assert OccursAt(s, r, i);
  }

  /** A string of white space only trims to the empty string. */
  lemma TrimEmptyWhenBlank(s: string)
    ensures (forall k :: 0 <= k < |s| ==> IsWhiteSpace(s[k])) ==> TrimEnd(TrimStart(s)) == []
  {
    var t := TrimStart(s);
    var r := TrimEnd(t);
    TrimStartSpec(s);
    TrimEndSpec(t);
    if r != [] {
      assert s[|s| - |t|] == r[0];
    }
  }

  /** A string that trims to the empty string is white space only. */
  lemma TrimBlankWhenEmpty(s: string)
    ensures TrimEnd(TrimStart(s)) == [] ==> forall k :: 0 <= k < |s| ==> IsWhiteSpace(s[k])
  {
    var t := TrimStart(s);
    TrimStartSpec(s);
    TrimEndSpec(t);
    if t != [] {
      assert IsWhiteSpace(t[0]) || TrimEnd(t) != [];
    }
  }

  /**
   * `t` is `s` with white space removed from its two ends and nothing else:
   * `t` occurs in `s` at some position, everything before and after that
   * occurrence is white space, and `t` neither starts nor ends with white space.
   */
  predicate TrimmedFrom(s: string, t: string) {
    && (exists i: nat | i <= |s| ::
          && OccursAt(s, t, i)
          && (forall k :: 0 <= k < i ==> IsWhiteSpace(s[k]))
          && (forall k :: i + |t| <= k < |s| ==> IsWhiteSpace(s[k])))
    && (t != [] ==> !IsWhiteSpace(t[0]) && !IsWhiteSpace(t[|t| - 1]))
  }

  /** `trim` removes exactly the white space at the two ends. */
  lemma TrimIsTrimmedFrom(s: string)
    ensures TrimmedFrom(s, Trim(s))
  {
    var t := TrimStart(s);
    var r := TrimEnd(t);
    TrimStartSpec(s);
    var i := |s| - |t|;
    assert OccursAt(s, r, i) && forall k :: i + |r| <= k < |s| ==> IsWhiteSpace(s[k]) by {
      TrimEndSpec(t);
      WhiteSpaceAfter(s, t, |r|);
      assert s[i..i + |r|] == t[..|r|];
    }
    assert r != [] ==> !IsWhiteSpace(r[0]) && !IsWhiteSpace(r[|r| - 1]) by {
      TrimEndSpec(t);
      if r != [] {
        assert r[0] == t[0];
      }
    }
  }

  /** White space in a suffix `t` of `s` beyond position `n` of `t` is white space in `s`. */
  lemma WhiteSpaceAfter(s: string, t: string, n: nat)
    requires |t| <= |s| && t == s[|s| - |t|..] && n <= |t|
    requires forall k :: n <= k < |t| ==> IsWhiteSpace(t[k])
    ensures forall k :: |s| - |t| + n <= k < |s| ==> IsWhiteSpace(s[k])
  {
    forall k | |s| - |t| + n <= k < |s|
      ensures IsWhiteSpace(s[k])
    {
      assert s[k] == t[k - (|s| - |t|)];
    }
  }

  /** Only `trim`'s result is trimmed from `s`: there is no other piece with white space alone around it. */
  lemma TrimmedFromUnique(s: string, t: string)
    requires TrimmedFrom(s, t)
    ensures t == Trim(s)
  {
    var i: nat :| i <= |s| && OccursAt(s, t, i)
                 && (forall k :: 0 <= k < i ==> IsWhiteSpace(s[k]))
                 && (forall k :: i + |t| <= k < |s| ==> IsWhiteSpace(s[k]));
    if t == [] {
      assert forall k :: 0 <= k < |s| ==> IsWhiteSpace(s[k]);
      TrimEmptyWhenBlank(s);
    } else {
      TrimStartAt(s, i);
      var ts := s[i..];
      assert ts[..|t|] == t && ts[|t| - 1] == t[|t| - 1];
      TrimEndAt(ts, |t|);
    }
  }

  /** When `s[i]` is the first character that is not white space, `TrimStart` keeps `s[i..]`. */
  lemma TrimStartAt(s: string, i: nat)
    requires i < |s| && !IsWhiteSpace(s[i])
    requires forall k :: 0 <= k < i ==> IsWhiteSpace(s[k])
    ensures TrimStart(s) == s[i..]
  {
    TrimStartSpec(s);
  }

  /** When `s[e - 1]` is the last character that is not white space, `TrimEnd` keeps `s[..e]`. */
  lemma TrimEndAt(s: string, e: nat)
    requires 0 < e <= |s| && !IsWhiteSpace(s[e - 1])
    requires forall k :: e <= k < |s| ==> IsWhiteSpace(s[k])
    ensures TrimEnd(s) == s[..e]
  {
    TrimEndSpec(s);
  }

  /** A string with no white space at either end is its own trim. */
  lemma TrimVisible(s: string)
    requires s != [] ==> !IsWhiteSpace(s[0]) && !IsWhiteSpace(s[|s| - 1])
    ensures Trim(s) == s
  {
    assert TrimStart(s) == s;
  }

  /** The first position at or after `from` where `pat` occurs in `s`, or -1. */
  function IndexFrom(s: string, pat: string, from: nat): (r: int)
    decreases |s| - from
    ensures r == -1 || (from <= r && OccursAt(s, pat, r))
    ensures r == -1 ==> forall i: nat :: from <= i ==> !OccursAt(s, pat, i)
    ensures r != -1 ==> forall i: nat :: from <= i < r ==> !OccursAt(s, pat, i)
  {
    if from + |pat| > |s| then -1
    else if s[from..from + |pat|] == pat then from
    else IndexFrom(s, pat, from + 1)
  }

  /** `s.indexOf(pat)`: the first occurrence of `pat` in `s`, or -1 when there is none. */
  function IndexOf(s: string, pat: string): (r: int)
    ensures r == -1 <==> !Contains(s, pat)
    ensures r != -1 ==> 0 <= r && OccursAt(s, pat, r)
    ensures r != -1 ==> forall i: nat :: i < r ==> !OccursAt(s, pat, i)
  {
    IndexFrom(s, pat, 0)
  }

  /**
   * `s.replace(pat, rep)` with a string pattern: only the FIRST occurrence of
   * `pat` is replaced; with no occurrence the string is returned unchanged.
   */
  function ReplaceFirst(s: string, pat: string, rep: string): (r: string)
    ensures !Contains(s, pat) ==> r == s
    ensures Contains(s, pat) ==> |r| == |s| - |pat| + |rep|
  {
    var i := IndexOf(s, pat);
    if i == -1 then s else s[..i] + rep + s[i + |pat|..]
  }

  /** Where `pat` first occurs at `i`, `ReplaceFirst` splices `rep` in at `i` and keeps the rest. */
  lemma ReplaceFirstAt(s: string, pat: string, rep: string, i: nat)
    requires OccursAt(s, pat, i)
    requires forall j: nat :: j < i ==> !OccursAt(s, pat, j)
    ensures ReplaceFirst(s, pat, rep) == s[..i] + rep + s[i + |pat|..]
  {
    var k := IndexOf(s, pat);
    assert k != -1;
    assert !(k < i) && !(i < k);
  }
}
