/**
 * The three JavaScript string operations the kiosk relies on:
 * `String.prototype.trim`, `toLowerCase` (on ASCII letters) and `includes`.
 */
module Strings {

  /** The characters `trim` removes: ECMAScript WhiteSpace and LineTerminator. */
  predicate IsJsWhitespace(c: char) {
    || c == '\t' || c == '\n' || c == '\U{000B}' || c == '\U{000C}' || c == '\r'
    || c == ' ' || c == '\U{00A0}' || c == '\U{1680}'
    || ('\U{2000}' <= c <= '\U{200A}')
    || c == '\U{2028}' || c == '\U{2029}' || c == '\U{202F}' || c == '\U{205F}'
    || c == '\U{3000}' || c == '\U{FEFF}'
  }

  /** Drops the leading whitespace: the result is the longest suffix that does not start with whitespace. */
  function TrimStart(s: string): (r: string)
    ensures |r| <= |s| && r == s[|s| - |r|..]
    ensures r == [] || !IsJsWhitespace(r[0])
    ensures forall k :: 0 <= k < |s| - |r| ==> IsJsWhitespace(s[k])
  {
    if s != [] && IsJsWhitespace(s[0]) then TrimStart(s[1..]) else s
  }

  /** Drops the trailing whitespace: the result is the longest prefix that does not end with whitespace. */
  function TrimEnd(s: string): (r: string)
    ensures |r| <= |s| && r == s[..|r|]
    ensures r == [] || !IsJsWhitespace(r[|r| - 1])
    ensures forall k :: |r| <= k < |s| ==> IsJsWhitespace(s[k])
  {
    if s != [] && IsJsWhitespace(s[|s| - 1]) then TrimEnd(s[..|s| - 1]) else s
  }

  /** Every character of `t` is whitespace. */
  predicate AllWhitespace(t: string) {
    forall k :: 0 <= k < |t| ==> IsJsWhitespace(t[k])
  }

  /** `sub` occurs in `s` starting at index `i`. */
  predicate OccursAt(s: string, sub: string, i: int) {
    0 <= i <= |s| - |sub| && s[i..i + |sub|] == sub
  }

  /**
   * `s.trim()`: a contiguous slice of `s` with whitespace on neither end,
   * everything cut off on either side being whitespace.
   */
  function Trim(s: string): (r: string)
    ensures exists i :: OccursAt(s, r, i) && AllWhitespace(s[..i]) && AllWhitespace(s[i + |r|..])
    ensures r == [] || (!IsJsWhitespace(r[0]) && !IsJsWhitespace(r[|r| - 1]))
  {
    var t := TrimStart(s);
    var r := TrimEnd(t);
    TrimSlice(s, t, r);
    r
  }

  /** Cutting whitespace off the front and then off the back leaves a slice with whitespace all around it. */
  lemma TrimSlice(s: string, t: string, r: string)
    requires |t| <= |s| && t == s[|s| - |t|..] && forall k :: 0 <= k < |s| - |t| ==> IsJsWhitespace(s[k])
    requires |r| <= |t| && r == t[..|r|] && forall k :: |r| <= k < |t| ==> IsJsWhitespace(t[k])
    ensures var i := |s| - |t|; OccursAt(s, r, i) && AllWhitespace(s[..i]) && AllWhitespace(s[i + |r|..])
  {
    var i := |s| - |t|;
    assert r == s[i..i + |r|];
    forall k | 0 <= k < i ensures IsJsWhitespace(s[..i][k]) {
      assert s[..i][k] == s[k];
    }
    var tail := s[i + |r|..];
    forall k | 0 <= k < |tail| ensures IsJsWhitespace(tail[k]) {
      assert tail[k] == t[|r| + k];
    }
  }

  /** A string without whitespace at either end is left alone by `trim`. */
  lemma {:induction false} TrimOfTrimmed(s: string)
    requires s == [] || (!IsJsWhitespace(s[0]) && !IsJsWhitespace(s[|s| - 1]))
    ensures Trim(s) == s
  {
    assert TrimStart(s) == s;
    assert TrimEnd(s) == s;
  }

  /** `trim` is idempotent. */
  lemma TrimIdempotent(s: string)
    ensures Trim(Trim(s)) == Trim(s)
  {
    TrimOfTrimmed(Trim(s));
  }

  /** `toLowerCase` on one character (ASCII letters only). */
  function LowerChar(c: char): (r: char)
    ensures 'A' <= c <= 'Z' ==> r != c && 'a' <= r <= 'z'
    ensures !('A' <= c <= 'Z') ==> r == c
  {
    if 'A' <= c <= 'Z' then (c as int - 'A' as int + 'a' as int) as char else c
  }

  /** `s.toLowerCase()`: same length, every character lowered, and no upper-case ASCII letter left. */
  function ToLower(s: string): (r: string)
    ensures |r| == |s|
    ensures forall k :: 0 <= k < |s| ==> r[k] == LowerChar(s[k])
    ensures forall k :: 0 <= k < |r| ==> !('A' <= r[k] <= 'Z')
  {
    seq(|s|, k requires 0 <= k < |s| => LowerChar(s[k]))
  }

  /** Lower-casing twice is lower-casing once. */
  lemma ToLowerIdempotent(s: string)
    ensures ToLower(ToLower(s)) == ToLower(s)
  {
  }

  /** `s.includes(sub)`: `sub` occurs somewhere in `s` as a contiguous slice. */
  function Contains(s: string, sub: string): (r: bool)
    ensures r <==> exists i :: OccursAt(s, sub, i)
  {
    if sub <= s then
      assert OccursAt(s, sub, 0);
      true
    else if s == [] then
      assert forall i :: !OccursAt(s, sub, i);
      false
    else
      var r := Contains(s[1..], sub);
      assert forall i :: OccursAt(s[1..], sub, i) <==> OccursAt(s, sub, i + 1) by {
        forall i ensures OccursAt(s[1..], sub, i) <==> OccursAt(s, sub, i + 1) {
          if 0 <= i <= |s| - 1 - |sub| { assert s[1..][i..i + |sub|] == s[i + 1..i + 1 + |sub|]; }
        }
      }
      assert !OccursAt(s, sub, 0);
      assert (exists i :: OccursAt(s, sub, i)) ==> exists i :: OccursAt(s[1..], sub, i) by {
        if i :| OccursAt(s, sub, i) { assert i != 0; assert OccursAt(s[1..], sub, i - 1); }
      }
      r
  }

  /** The empty string occurs in every string, so an empty search keeps everything. */
  lemma ContainsEmpty(s: string)
    ensures Contains(s, "")
  {
    assert OccursAt(s, "", 0);
  }

  /** An occurrence inside a slice is an occurrence in the whole string. */
  lemma ContainsSliceOf(s: string, i: nat, j: nat, sub: string)
    requires i <= j <= |s|
    requires Contains(s[i..j], sub)
    ensures Contains(s, sub)
  {
    var k :| OccursAt(s[i..j], sub, k);
    assert 0 <= k && k + |sub| <= j - i;
    forall m | 0 <= m < |sub| ensures s[i + k + m] == sub[m] {
      assert sub[m] == s[i..j][k..k + |sub|][m] == s[i..j][k + m];
    }
    assert s[i + k..i + k + |sub|] == sub;
    assert OccursAt(s, sub, i + k);
  }

  /** A decimal digit. */
  predicate IsDigit(c: char) {
    '0' <= c <= '9'
  }

  /**
   * `s.replace(/-[0-9]$/, '')`: drops a final dash-and-digit, once; any other
   * string is returned unchanged.
   */
  function StripUnitSuffix(s: string): (r: string)
    ensures r == s || (|s| >= 2 && s == r + ['-', s[|s| - 1]] && IsDigit(s[|s| - 1]))
    ensures r != s <==> |s| >= 2 && s[|s| - 2] == '-' && IsDigit(s[|s| - 1])
  {
    if |s| >= 2 && s[|s| - 2] == '-' && IsDigit(s[|s| - 1]) then s[..|s| - 2] else s
  }

  /**
   * Only one suffix goes: a name that ends in two unit suffixes keeps the first,
   * and a name that does not end in one is kept as it is.
   */
  lemma StripUnitSuffixOnce(base: string, d: char, e: char)
    requires IsDigit(d) && IsDigit(e)
    ensures StripUnitSuffix(base + ['-', d]) == base
    ensures StripUnitSuffix(base + ['-', d, '-', e]) == base + ['-', d]
    ensures StripUnitSuffix("hush-puppies-1") == "hush-puppies"
    ensures StripUnitSuffix("hush-puppies") == "hush-puppies"
  {
    assert (base + ['-', d])[..|base|] == base;
    assert (base + ['-', d, '-', e])[..|base| + 2] == base + ['-', d];
    assert "hush-puppies-1"[..12] == "hush-puppies";
  }
}
