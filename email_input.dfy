/**
 * What an `<input type="email">` puts in front of a page's handlers, as the
 * e-mail state of the HTML Living Standard (section 4.10.5.1.5) defines it.
 * The value sanitization algorithm removes line breaks and then strips
 * leading and trailing ASCII white space, so the value a change handler
 * reads is already sanitized.  A value that is neither empty nor a valid
 * e-mail address suffers from a type mismatch, and a form without
 * `novalidate` holding such a field is not submitted: its submit handler
 * never runs.
 */
module EmailInput {
  import JsText

  /** ASCII white space: tab, line feed, form feed, carriage return and space. */
  predicate AsciiWhitespace(c: char) {
    c == '\t' || c == '\n' || c == '\U{000C}' || c == '\r' || c == ' '
  }

  predicate IsNewline(c: char) {
    c == '\n' || c == '\r'
  }

  /** "Strip newlines": every line feed and carriage return removed. */
  function StripNewlines(s: string): (r: string)
    ensures forall i :: 0 <= i < |r| ==> !IsNewline(r[i])
    ensures forall i :: 0 <= i < |r| ==> r[i] in s
    ensures (forall i :: 0 <= i < |s| ==> !IsNewline(s[i])) ==> r == s
  {
    if s == [] then []
    else
      var t := StripNewlines(s[1..]);
      assert forall i :: 0 <= i < |t| ==> t[i] in s by {
        forall i | 0 <= i < |t| ensures t[i] in s {
          assert t[i] in s[1..];
        }
      }
      if IsNewline(s[0]) then t else [s[0]] + t
  }

  /** Where leading ASCII white space ends: stripping it keeps `s[k..]`. */
  function LeadingEnd(s: string): (k: nat)
    ensures k <= |s|
    ensures forall i :: 0 <= i < k ==> AsciiWhitespace(s[i])
    ensures k == |s| || !AsciiWhitespace(s[k])
  {
    if s != [] && AsciiWhitespace(s[0]) then
      assert forall i :: 1 <= i < |s| ==> s[1..][i - 1] == s[i];
      1 + LeadingEnd(s[1..])
    else 0
  }

  /** Where trailing ASCII white space starts: stripping it keeps `s[..k]`. */
  function TrailingStart(s: string): (k: nat)
    ensures k <= |s|
    ensures forall i :: k <= i < |s| ==> AsciiWhitespace(s[i])
    ensures k == 0 || !AsciiWhitespace(s[k - 1])
  {
    if s != [] && AsciiWhitespace(s[|s| - 1]) then
      assert forall i :: 0 <= i < |s| - 1 ==> s[..|s| - 1][i] == s[i];
      TrailingStart(s[..|s| - 1])
    else |s|
  }

  /** On one character, `StripNewlines` drops it iff it is a line break. */
  lemma StripNewlinesChar(c: char)
    ensures StripNewlines([c]) == (if IsNewline(c) then [] else [c])
  {
    assert [c][1..] == [];
  }

  /** `StripNewlines` works character by character: it distributes over concatenation. */
  lemma {:induction false} StripNewlinesAppend(a: string, b: string)
    ensures StripNewlines(a + b) == StripNewlines(a) + StripNewlines(b)
  {
    if a != [] {
      var h := if IsNewline(a[0]) then [] else [a[0]];
      assert (a + b)[0] == a[0] && (a + b)[1..] == a[1..] + b;
      assert StripNewlines(a + b) == h + StripNewlines(a[1..] + b);
      assert StripNewlines(a) == h + StripNewlines(a[1..]);
      StripNewlinesAppend(a[1..], b);
    } else {
      assert a + b == b;
    }
  }

  /**
   * `r` is what is left of `n` once leading ASCII white space (up to `a`)
   * and trailing ASCII white space are cut off, down to a non-white-space
   * character at each end.
   */
  ghost predicate EdgesCut(n: string, a: int, r: string) {
    && 0 <= a && a + |r| <= |n|
    && r == n[a..a + |r|]
    && (forall i :: 0 <= i < a ==> AsciiWhitespace(n[i]))
    && (forall i :: a + |r| <= i < |n| ==> AsciiWhitespace(n[i]))
    && (r == [] || (!AsciiWhitespace(r[0]) && !AsciiWhitespace(r[|r| - 1])))
  }

  /** Trailing white space of a suffix `n[a..]`, stated on `n` itself. */
  lemma TrailingOfSuffix(n: string, a: nat)
    requires a <= |n|
    ensures var k := TrailingStart(n[a..]);
      && a + k <= |n|
      && (forall i :: a + k <= i < |n| ==> AsciiWhitespace(n[i]))
      && (k == 0 || !AsciiWhitespace(n[a + k - 1]))
  {
    var m := n[a..];
    var k := TrailingStart(m);
    forall i | a + k <= i < |n|
      ensures AsciiWhitespace(n[i])
    {
      assert n[i] == m[i - a];
    }
    if k > 0 {
      assert n[a + k - 1] == m[k - 1];
    }
  }

  /** Cutting `n` at `a` and `a + k`, both white-space edges, is a cut of its edges. */
  lemma EdgesAt(n: string, a: nat, k: nat)
    requires a + k <= |n|
    requires (forall i :: 0 <= i < a ==> AsciiWhitespace(n[i])) && (a == |n| || !AsciiWhitespace(n[a]))
    requires (forall i :: a + k <= i < |n| ==> AsciiWhitespace(n[i])) && (k == 0 || !AsciiWhitespace(n[a + k - 1]))
    ensures EdgesCut(n, a, n[a..a + k])
  {
    var r := n[a..a + k];
    if k > 0 {
      assert r[0] == n[a] && r[k - 1] == n[a + k - 1];
    }
  }

  /** `n` with its leading and trailing ASCII white space stripped. */
  function StripEdges(n: string): (r: string)
    ensures EdgesCut(n, LeadingEnd(n), r)
  {
    var a := LeadingEnd(n);
    TrailingOfSuffix(n, a);
    var k := TrailingStart(n[a..]);
    EdgesAt(n, a, k);
    n[a..a + k]
  }

  /**
   * The value sanitization algorithm of the e-mail state: strip newlines,
   * then the leading and the trailing ASCII white space.  What is left is
   * the newline-free text with exactly its white-space edges cut off.
   */
  function Sanitize(value: string): (r: string)
    ensures var n := StripNewlines(value); EdgesCut(n, LeadingEnd(n), r)
    ensures forall i :: 0 <= i < |r| ==> !IsNewline(r[i])
    ensures r == [] || (!AsciiWhitespace(r[0]) && !AsciiWhitespace(r[|r| - 1]))
    ensures forall i :: 0 <= i < |r| ==> r[i] in value
  {
    var n := StripNewlines(value);
    var r := StripEdges(n);
    CutKeepsCharacters(value, n, LeadingEnd(n), r);
    r
  }

  /** A cut of the newline-free text holds no line break and only characters of the value. */
  lemma CutKeepsCharacters(value: string, n: string, a: int, r: string)
    requires n == StripNewlines(value) && EdgesCut(n, a, r)
    ensures forall i :: 0 <= i < |r| ==> !IsNewline(r[i]) && r[i] in value
  {
    forall i | 0 <= i < |r|
      ensures !IsNewline(r[i]) && r[i] in value
    {
      assert r[i] == n[a + i];
    }
  }

  /** The cut is determined: only one text of `n` has its white-space edges cut. */
  lemma EdgesCutUnique(n: string, a: int, r: string, a': int, r': string)
    requires EdgesCut(n, a, r) && EdgesCut(n, a', r')
    ensures r == r'
  {
  }

  /** A value without line breaks or white-space edges, such as a typed address, is kept unchanged. */
  lemma CleanValueKept(value: string)
    requires forall i :: 0 <= i < |value| ==> !IsNewline(value[i])
    requires value == [] || (!AsciiWhitespace(value[0]) && !AsciiWhitespace(value[|value| - 1]))
    ensures Sanitize(value) == value
  {
    assert EdgesCut(value, 0, value);
    EdgesCutUnique(value, LeadingEnd(value), Sanitize(value), 0, value);
  }

  /** A sanitized value is left as it is by a second sanitization. */
  lemma SanitizeIdempotent(value: string)
    ensures Sanitize(Sanitize(value)) == Sanitize(value)
  {
    CleanValueKept(Sanitize(value));
  }

  /** A value of ASCII white space only reads as the empty string. */
  lemma AsciiBlankReadsEmpty(value: string)
    requires forall i :: 0 <= i < |value| ==> AsciiWhitespace(value[i])
    ensures Sanitize(value) == ""
  {
  }

  /** The characters allowed before the '@'. */
  predicate LocalChar(c: char) {
    || ('a' <= c <= 'z') || ('A' <= c <= 'Z') || ('0' <= c <= '9')
    || c in ".!#$%&'*+/=?^_`{|}~-"
  }

  predicate Alnum(c: char) {
    ('a' <= c <= 'z') || ('A' <= c <= 'Z') || ('0' <= c <= '9')
  }

  /** A domain label: 1 to 63 letters, digits and hyphens, starting and ending with a letter or digit. */
  predicate ValidLabel(l: string) {
    && 1 <= |l| <= 63 && Alnum(l[0]) && Alnum(l[|l| - 1])
    && forall i :: 0 <= i < |l| ==> Alnum(l[i]) || l[i] == '-'
  }

  /** Labels separated by single dots; a label holds no dot, so the first dot ends the first label. */
  predicate ValidDomain(d: string)
    decreases |d|
  {
    var l := JsText.BeforeFirst(d, '.');
    ValidLabel(l) && (|l| == |d| || ValidDomain(d[|l| + 1..]))
  }

  /**
   * A valid e-mail address: one or more local characters, '@', and a valid
   * domain.  No local character is '@', so the first '@' is the separator.
   */
  predicate ValidEmailAddress(s: string) {
    var local := JsText.BeforeFirst(s, '@');
    && 0 < |local| < |s|
    && (forall i :: 0 <= i < |local| ==> LocalChar(local[i]))
    && ValidDomain(s[|local| + 1..])
  }

  /** The field does not suffer from a type mismatch, so it does not block the submit. */
  predicate Accepts(value: string) {
    value == "" || ValidEmailAddress(value)
  }

  /** A valid address starts with a local character, so it is never blank. */
  lemma ValidAddressNotBlank(s: string)
    requires ValidEmailAddress(s)
    ensures s != "" && !JsText.AllWhitespace(s)
  {
    var local := JsText.BeforeFirst(s, '@');
    assert s[0] == local[0] && LocalChar(local[0]);
  }

  /**
   * Whatever is typed into the field, only white space (ASCII or not), the
   * value either reads as empty or blocks the submit.
   */
  lemma BlankNeverAccepted(typed: string)
    requires JsText.AllWhitespace(typed)
    ensures var v := Sanitize(typed); v == "" || !Accepts(v)
  {
    var v := Sanitize(typed);
    if v != "" && ValidEmailAddress(v) {
      ValidAddressNotBlank(v);
    }
  }

  /** Text without an '@' blocks the submit. */
  lemma NoAtBlocks(s: string)
    requires s != "" && '@' !in s
    ensures !Accepts(s)
  {
  }

  /** The first `c` in `s` sits at `k`, so the text before it is `s[..k]`. */
  lemma BeforeFirstIs(s: string, c: char, k: nat)
    requires k <= |s| && c !in s[..k] && (k < |s| ==> s[k] == c)
    ensures JsText.BeforeFirst(s, c) == s[..k]
  {
  }

  /** A single label is a domain. */
  lemma LabelIsDomain(l: string)
    requires ValidLabel(l) && '.' !in l
    ensures ValidDomain(l)
  {
    BeforeFirstIs(l, '.', |l|);
  }

  /** A label, a dot and a domain make a domain. */
  lemma DomainCons(l: string, d: string)
    requires ValidLabel(l) && '.' !in l && ValidDomain(d)
    ensures ValidDomain(l + "." + d)
  {
    var s := l + "." + d;
    BeforeFirstIs(s, '.', |l|);
    assert s[..|l|] == l && s[|l| + 1..] == d;
  }

  /** Local characters, '@' and a domain make an address. */
  lemma AddressOf(local: string, d: string)
    requires local != [] && (forall i :: 0 <= i < |local| ==> LocalChar(local[i]))
    requires ValidDomain(d)
    ensures ValidEmailAddress(local + "@" + d)
  {
    var s := local + "@" + d;
    assert '@' !in local by {
      forall i | 0 <= i < |local| ensures local[i] != '@' {
        assert LocalChar(local[i]);
      }
    }
    BeforeFirstIs(s, '@', |local|);
    assert s[..|local|] == local && s[|local| + 1..] == d;
  }
}
