/**
 * The blog editor: a text area whose word count is kept next to the text,
 * a progress bar and label against a 2000-word budget, four sample posts
 * that load into the editor, and a "Clear All" action.
 *
 * The editor counts words as `text.trim().split(/\s+/)` with the empty
 * pieces filtered out; the sample cards count `content.split(' ')`
 * pieces, which is a different rule.
 */
module BlogInput {
  import JsText

  const MaxWords: nat := 2000

  predicate Ws(c: char) {
    JsText.IsWhitespace(c)
  }

  // ---------------------------------------------------------------- words

  /**
   * The number of maximal runs of non-white-space characters in `s`;
   * `inWord` says whether the character just before `s` belongs to a run.
   */
  function Runs(s: string, inWord: bool): nat {
    if s == [] then 0
    else if Ws(s[0]) then Runs(s[1..], false)
    else (if inWord then 0 else 1) + Runs(s[1..], true)
  }

  /** The number of words of `s`: its maximal runs of non-white-space characters. */
  function WordCount(s: string): nat {
    Runs(s, false)
  }

  /** The pieces `s.split(/\s+/)` yields, `cur` being the piece read so far. */
  function SplitRest(s: string, cur: string): (r: seq<string>)
    ensures |r| >= 1
    decreases |s|
  {
    if s == [] then [cur]
    else if Ws(s[0]) then
      var rest := JsText.TrimStart(s);
      [cur] + SplitRest(rest, "")
    else SplitRest(s[1..], cur + [s[0]])
  }

  /** `s.split(/\s+/)`: the pieces between maximal runs of white space. */
  function SplitWs(s: string): (r: seq<string>)
    ensures |r| >= 1
  {
    SplitRest(s, "")
  }

  /** `pieces.filter(word => word.length > 0)` */
  function NonEmpty(pieces: seq<string>): (r: seq<string>)
    ensures |r| <= |pieces|
    ensures forall k :: 0 <= k < |r| ==> r[k] != "" && r[k] in pieces
  {
    if pieces == [] then []
    else if pieces[0] == "" then NonEmpty(pieces[1..])
    else [pieces[0]] + NonEmpty(pieces[1..])
  }

  lemma {:induction false} NonEmptyAppend(a: seq<string>, b: seq<string>)
    ensures NonEmpty(a + b) == NonEmpty(a) + NonEmpty(b)
  {
    if a == [] {
      assert a + b == b;
    } else {
      assert (a + b)[0] == a[0];
      assert (a + b)[1..] == a[1..] + b;
      NonEmptyAppend(a[1..], b);
    }
  }

  /** The editor's count: `text.trim().split(/\s+/).filter(word => word.length > 0).length`. */
  function CountWords(text: string): nat {
    |NonEmpty(SplitWs(JsText.Trim(text)))|
  }

  /** Skipping leading white space does not change the number of runs that start afterwards. */
  lemma {:induction false} RunsSkipWs(s: string)
    ensures Runs(JsText.TrimStart(s), false) == Runs(s, false)
    decreases |s|
  {
    if |s| > 0 && Ws(s[0]) {
      RunsSkipWs(s[1..]);
    }
  }

  /** White space at the end adds no run. */
  lemma {:induction false} RunsTrailingWs(a: string, w: string, inWord: bool)
    requires JsText.AllWhitespace(w)
    ensures Runs(a + w, inWord) == Runs(a, inWord)
    decreases |a| + |w|
  {
    if a == [] {
      assert a + w == w;
      if w != [] {
        assert Ws(w[0]);
        assert JsText.AllWhitespace(w[1..]) by {
          forall i | 0 <= i < |w[1..]|
            ensures Ws(w[1..][i])
          {
            assert w[1..][i] == w[i + 1];
          }
        }
        RunsTrailingWs(a, w[1..], false);
        assert a + w[1..] == w[1..];
      }
    } else {
      assert (a + w)[0] == a[0];
      assert (a + w)[1..] == a[1..] + w;
      RunsTrailingWs(a[1..], w, !Ws(a[0]));
    }
  }

  /** Splitting at white-space runs and dropping empty pieces leaves one piece per run. */
  lemma {:induction false} SplitCountsRuns(s: string, cur: string)
    ensures |NonEmpty(SplitRest(s, cur))| == Runs(s, cur != "") + (if cur != "" then 1 else 0)
    decreases |s|
  {
    if s == [] {
      assert SplitRest(s, cur) == [cur];
      assert NonEmpty([cur]) == (if cur == "" then [] else [cur]) by {
        assert [cur][1..] == [];
      }
    } else if Ws(s[0]) {
      var rest := JsText.TrimStart(s);
      SplitCountsRuns(rest, "");
      NonEmptyAppend([cur], SplitRest(rest, ""));
      assert NonEmpty([cur]) == (if cur == "" then [] else [cur]) by {
        assert [cur][1..] == [];
      }
      RunsSkipWs(s);
      RunsSkipWs(s[1..]);
      assert JsText.TrimStart(s) == JsText.TrimStart(s[1..]);
    } else {
      SplitCountsRuns(s[1..], cur + [s[0]]);
    }
  }

  /** Trimming first does not change the number of runs. */
  lemma RunsOfTrim(s: string)
    ensures Runs(JsText.Trim(s), false) == Runs(s, false)
  {
    var t := JsText.TrimStart(s);
    RunsSkipWs(s);
    RunsOfTrimEnd(t);
    assert JsText.Trim(s) == JsText.TrimEnd(t);
  }

  /** Cutting trailing white space does not change the number of runs. */
  lemma RunsOfTrimEnd(t: string)
    ensures Runs(JsText.TrimEnd(t), false) == Runs(t, false)
  {
    var r := JsText.TrimEnd(t);
    assert t == r + t[|r|..];
    RunsTrailingWs(r, t[|r|..], false);
  }

  /** The editor's count is the number of words: one per maximal non-white-space run. */
  lemma CountWordsIsWordCount(text: string)
    ensures CountWords(text) == WordCount(text)
  {
    SplitCountsRuns(JsText.Trim(text), "");
    RunsOfTrim(text);
  }

  /** A text has no words exactly when it is empty or all white space. */
  lemma {:induction false} NoWordsIff(s: string)
    ensures WordCount(s) == 0 <==> JsText.AllWhitespace(s)
    decreases |s|
  {
    if s != [] && Ws(s[0]) {
      NoWordsIff(s[1..]);
      if JsText.AllWhitespace(s[1..]) {
        assert JsText.AllWhitespace(s) by {
          forall i | 0 <= i < |s|
            ensures Ws(s[i])
          {
            if i > 0 {
              assert s[i] == s[1..][i - 1];
            }
          }
        }
      }
      if JsText.AllWhitespace(s) {
        assert JsText.AllWhitespace(s[1..]) by {
          forall i | 0 <= i < |s[1..]|
            ensures Ws(s[1..][i])
          {
            assert s[1..][i] == s[i + 1];
          }
        }
      }
    }
  }

  // ---------------------------------------------------------------- sample cards

  datatype SampleBlog = SampleBlog(title: string, content: string, category: string)

  /** The number of times `c` occurs in `s`. */
  function Occurrences(s: string, c: char): nat {
    if s == [] then 0 else (if s[0] == c then 1 else 0) + Occurrences(s[1..], c)
  }

  /** The pieces `s.split(c)` yields, `cur` being the piece read so far. */
  function SplitOnRest(s: string, c: char, cur: string): seq<string> {
    if s == [] then [cur]
    else if s[0] == c then [cur] + SplitOnRest(s[1..], c, "")
    else SplitOnRest(s[1..], c, cur + [s[0]])
  }

  /** `s.split(c)` for a one-character separator. */
  function SplitOn(s: string, c: char): seq<string> {
    SplitOnRest(s, c, "")
  }

  /** Splitting at a character gives one piece more than it has separators. */
  lemma {:induction false} SplitOnCount(s: string, c: char, cur: string)
    ensures |SplitOnRest(s, c, cur)| == Occurrences(s, c) + 1
  {
    if s != [] {
      if s[0] == c {
        SplitOnCount(s[1..], c, "");
      } else {
        SplitOnCount(s[1..], c, cur + [s[0]]);
      }
    }
  }

  /** The count on a sample card: `blog.content.split(' ').length`, the number of spaces plus one. */
  function CardWordCount(content: string): (n: nat)
    ensures n == Occurrences(content, ' ') + 1
  {
    SplitOnCount(content, ' ', "");
    |SplitOn(content, ' ')|
  }

  /**
   * The excerpt on a sample card: `content.substring(0, 120)`, which counts
   * UTF-16 code units, and an ellipsis.  The excerpt is the longest prefix
   * that fits in 120 units, the whole text when it fits.
   */
  function Preview(content: string): (p: string)
    ensures |p| >= 3 && p[|p| - 3..] == "..."
    ensures var q := p[..|p| - 3];
      && |q| <= |content| && q == content[..|q|] && JsText.Utf16Length(q) <= 120
      && (|q| < |content| ==> 120 < JsText.Utf16Length(content[..|q| + 1]))
    ensures JsText.Utf16Length(content) <= 120 ==> p == content + "..."
  {
    var q := JsText.Utf16Prefix(content, 120);
    assert (q + "...")[..|q|] == q;
    q + "..."
  }

  /** A text with no character above U+FFFF is cut after exactly 120 characters. */
  lemma BmpPreview(content: string)
    requires JsText.AllBmp(content) && |content| > 120
    ensures Preview(content) == content[..120] + "..."
  {
    var q := JsText.Utf16Prefix(content, 120);
    JsText.Utf16LengthIsSize(q);
    if |q| < 120 {
      JsText.Utf16LengthIsSize(content[..|q| + 1]);
      assert false;
    }
  }

  /** An empty text has no words. */
  lemma EmptyHasNoWords()
    ensures CountWords("") == 0
  {
    CountWordsIsWordCount("");
    assert WordCount("") == 0;
  }

  lemma SampleCharacters()
    ensures !Ws('a') && !Ws('b') && Ws(' ') && Ws('\n')
  {
  }

  /**
   * A double space makes the card count one word more than the editor
   * (whose count is `WordCount`, by `CountWordsIsWordCount`).
   */
  lemma DoubleSpaceOvercounted()
    ensures CardWordCount("a  b") == 3 && WordCount("a  b") == 2
  {
    var s := "a  b";
    assert s[1..] == "  b" && s[2..] == " b" && s[3..] == "b" && s[4..] == "";
    assert Occurrences(s, ' ') == 2;
    SampleCharacters();
    assert Runs(s[3..], false) == 1;
    assert Runs(s[2..], false) == 1;
    assert Runs(s[1..], true) == 1;
  }

  /** A line break makes the card count one word fewer than the editor. */
  lemma LineBreakUndercounted()
    ensures CardWordCount("a\nb") == 1 && WordCount("a\nb") == 2
  {
    var s := "a\nb";
    assert s[1..] == "\nb" && s[2..] == "b" && s[3..] == "";
    assert Occurrences(s, ' ') == 0;
    SampleCharacters();
    assert Runs(s[2..], false) == 1;
    assert Runs(s[1..], true) == 1;
  }

  // ---------------------------------------------------------------- budget

  /** `(wordCount / maxWords) * 100` */
  function Progress(count: nat): (p: real)
    ensures p >= 0.0
    ensures p * MaxWords as real == count as real * 100.0
  {
    count as real / MaxWords as real * 100.0
  }

  /** The label under the text area. */
  function Label(progress: real): string {
    if progress > 100.0 then "Too long" else if progress > 90.0 then "Almost full" else "Perfect"
  }

  /** The label by word count: too long beyond 2000 words, almost full beyond 1800. */
  lemma LabelByCount(count: nat)
    ensures Label(Progress(count)) == "Too long" <==> count > 2000
    ensures Label(Progress(count)) == "Almost full" <==> 1800 < count <= 2000
    ensures Label(Progress(count)) == "Perfect" <==> count <= 1800
  {
    assert Progress(count) == count as real / 20.0;
  }

  /** The colour of the label. */
  function LabelColour(progress: real): string {
    if progress > 90.0 then "#ef4444" else if progress > 70.0 then "#f59e0b" else "#10b981"
  }

  /** The colour by word count: red beyond 1800 words, amber beyond 1400. */
  lemma ColourByCount(count: nat)
    ensures LabelColour(Progress(count)) == "#ef4444" <==> count > 1800
    ensures LabelColour(Progress(count)) == "#f59e0b" <==> 1400 < count <= 1800
    ensures LabelColour(Progress(count)) == "#10b981" <==> count <= 1400
  {
    assert Progress(count) == count as real / 20.0;
  }

  /** The width of the progress bar in percent: `Math.min(progress, 100)`. */
  function BarWidth(progress: real): (w: real)
    ensures w <= 100.0 && (w == progress || w == 100.0)
    ensures progress >= 0.0 ==> w >= 0.0
  {
    if progress < 100.0 then progress else 100.0
  }

  /** The bar is full exactly from 2000 words on, and otherwise proportional. */
  lemma BarWidthByCount(count: nat)
    ensures BarWidth(Progress(count)) == 100.0 <==> count >= 2000
    ensures count < 2000 ==> BarWidth(Progress(count)) == count as real / 20.0
  {
    assert Progress(count) == count as real / 20.0;
  }

  // ---------------------------------------------------------------- the editor

  class Editor {
    var content: string
    var wordCount: nat

    /** The count shown is the count of the text shown. */
    predicate Valid()
      reads this
    {
      wordCount == CountWords(content)
    }

    constructor ()
      ensures content == "" && wordCount == 0 && Valid()
    {
      content := "";
      wordCount := 0;
      EmptyHasNoWords();
    }

    /** `handleContentChange`: the new text and its count. */
    method HandleContentChange(text: string)
      modifies this
      ensures content == text && Valid()
      ensures wordCount == WordCount(text)
    {
      content := text;
      wordCount := CountWords(text);
      CountWordsIsWordCount(text);
    }

    /** `loadSampleBlog`: a sample's text and its count. */
    method LoadSampleBlog(blog: SampleBlog)
      modifies this
      ensures content == blog.content && Valid()
      ensures wordCount == WordCount(blog.content)
    {
      content := blog.content;
      wordCount := CountWords(blog.content);
      CountWordsIsWordCount(blog.content);
    }

    /** `clearContent` */
    method ClearContent()
      modifies this
      ensures content == "" && wordCount == 0 && Valid()
    {
      content := "";
      wordCount := 0;
      EmptyHasNoWords();
    }

    function CurrentProgress(): real
      reads this
    {
      Progress(wordCount)
    }
  }
}
