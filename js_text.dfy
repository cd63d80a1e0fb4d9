/**
 * The JavaScript string operations the components rely on: the white-space
 * class shared by `String.prototype.trim` and the regular-expression class
 * `\s`, `trim`, `split(c)[0]`, and lengths in UTF-16 code units, which is
 * what `.length` and `substring` count.  A Dafny `char` is a Unicode scalar
 * value: one code unit below U+10000, a surrogate pair (two) above.
 */
module JsText {

  /** ECMAScript WhiteSpace and LineTerminator code points (the `\s` class). */
  predicate IsWhitespace(c: char) {
    || c == '\t' || c == '\n' || c == '\U{000B}' || c == '\U{000C}' || c == '\r'
    || c == ' ' || c == '\U{00A0}' || c == '\U{1680}'
    || ('\U{2000}' <= c <= '\U{200A}')
    || c == '\U{2028}' || c == '\U{2029}' || c == '\U{202F}' || c == '\U{205F}'
    || c == '\U{3000}' || c == '\U{FEFF}'
  }

  predicate AllWhitespace(s: string) {
    forall i :: 0 <= i < |s| ==> IsWhitespace(s[i])
  }

  function TrimStart(s: string): (r: string)
    ensures |r| <= |s| && r == s[|s| - |r|..]
    ensures AllWhitespace(s[..|s| - |r|])
    ensures r == [] || !IsWhitespace(r[0])
  {
    if |s| > 0 && IsWhitespace(s[0]) then
      var r := TrimStart(s[1..]);
      assert s[..|s| - |r|] == [s[0]] + s[1..][..|s| - 1 - |r|];
      r
    else s
  }

  function TrimEnd(s: string): (r: string)
    ensures |r| <= |s| && r == s[..|r|]
    ensures AllWhitespace(s[|r|..])
    ensures r == [] || !IsWhitespace(r[|r| - 1])
  {
    if |s| > 0 && IsWhitespace(s[|s| - 1]) then
      var r := TrimEnd(s[..|s| - 1]);
      assert s[|r|..] == s[..|s| - 1][|r|..] + [s[|s| - 1]];
      r
    else s
  }

  /**
   * `r` is `s` with `k` characters of white space cut at the front and the
   * rest of the white space cut at the back, and `r` neither starts nor
   * ends with white space.
   */
  ghost predicate TrimmedAt(s: string, k: int, r: string) {
    && 0 <= k && k + |r| <= |s| && r == s[k..k + |r|]
    && AllWhitespace(s[..k]) && AllWhitespace(s[k + |r|..])
    && (r == [] || (!IsWhitespace(r[0]) && !IsWhitespace(r[|r| - 1])))
  }

  /**
   * `s.trim()`: white space removed from both ends, nothing else changed.
   * The result is the slice of `s` starting after its leading white space,
   * and what was cut on either side is all white space.
   */
  function Trim(s: string): (r: string)
    ensures TrimmedAt(s, |s| - |TrimStart(s)|, r)
  {
    var t := TrimStart(s);
    var r := TrimEnd(t);
    TrimSlices(s, t, r);
    r
  }

  /** Where a trimmed prefix of a suffix of `s` sits in `s`, and what was cut. */
  lemma TrimSlices(s: string, t: string, r: string)
    requires |t| <= |s| && t == s[|s| - |t|..] && |r| <= |t| && r == t[..|r|]
    requires AllWhitespace(s[..|s| - |t|]) && AllWhitespace(t[|r|..])
    requires (t == [] || !IsWhitespace(t[0])) && (r == [] || !IsWhitespace(r[|r| - 1]))
    ensures TrimmedAt(s, |s| - |t|, r)
  {
    assert s[|s| - |t| + |r|..] == t[|r|..];
    assert r != [] ==> r[0] == t[0];
  }

  /** A string is blank after trimming exactly when it is all white space. */
  lemma TrimEmptyIff(s: string)
    ensures Trim(s) == "" <==> AllWhitespace(s)
  {
    var t := TrimStart(s);
    assert s == s[..|s| - |t|] + t;
    if Trim(s) == "" {
      assert t == [];
    } else {
      var r := Trim(s);
      assert r == t[..|r|];
      assert !IsWhitespace(s[|s| - |t|]);
    }
  }

  /** `s.split(c)[0]`: everything before the first `c`, or all of `s`. */
  function BeforeFirst(s: string, c: char): (r: string)
    ensures |r| <= |s| && r == s[..|r|]
    ensures c !in r
    ensures |r| < |s| ==> s[|r|] == c
  {
    if |s| == 0 || s[0] == c then "" else [s[0]] + BeforeFirst(s[1..], c)
  }

  /** The UTF-16 code units `c` takes. */
  function Units(c: char): (n: nat)
    ensures n == 1 || n == 2
  {
    if c < '\U{10000}' then 1 else 2
  }

  /** `s.length`: the number of UTF-16 code units. */
  function Utf16Length(s: string): (n: nat)
    ensures |s| <= n <= 2 * |s|
  {
    if s == [] then 0 else Units(s[0]) + Utf16Length(s[1..])
  }

  /** Characters of the Basic Multilingual Plane only, each one code unit. */
  predicate AllBmp(s: string) {
    forall i :: 0 <= i < |s| ==> s[i] < '\U{10000}'
  }

  /** `.length` counts characters exactly when none is above U+FFFF. */
  lemma {:induction false} Utf16LengthIsSize(s: string)
    ensures Utf16Length(s) == |s| <==> AllBmp(s)
  {
    if s != [] {
      Utf16LengthIsSize(s[1..]);
      assert forall i :: 1 <= i < |s| ==> s[i] == s[1..][i - 1];
    }
  }

  /** Extending a prefix by one character adds that character's units. */
  lemma {:induction false} Utf16LengthSnoc(s: string, k: nat)
    requires k < |s|
    ensures Utf16Length(s[..k + 1]) == Utf16Length(s[..k]) + Units(s[k])
  {
    if k > 0 {
      Utf16LengthSnoc(s[1..], k - 1);
      assert s[..k + 1][1..] == s[1..][..k];
      assert s[..k][1..] == s[1..][..k - 1];
    } else {
      assert s[..1][1..] == [];
    }
  }

  /**
   * `s.substring(0, n)` on whole characters: the longest prefix of `s` that
   * fits in `n` code units.
   */
  function Utf16Prefix(s: string, n: nat): (r: string)
    ensures |r| <= |s| && r == s[..|r|]
    ensures Utf16Length(r) <= n
    ensures |r| < |s| ==> n < Utf16Length(s[..|r| + 1])
    ensures Utf16Length(s) <= n ==> r == s
  {
    if s == [] || n < Units(s[0]) then
      assert s != [] ==> s[..1][1..] == [];
      []
    else
      var t := Utf16Prefix(s[1..], n - Units(s[0]));
      var r := [s[0]] + t;
      assert r[1..] == t;
      assert r == s[..|r|];
      assert |r| < |s| ==> s[..|r| + 1][1..] == s[1..][..|t| + 1];
      r
  }
}
