/**
 * The scripture label the link parser writes is a fixed point of the
 * parser, and the made-up lesson URL of a label carries its chapter
 * numbers (weekly_curriculum_manager.py:164-193, 252-267).
 */
module ScriptureProofs {
  import opened Wrappers
  import opened Text
  import opened Patterns
  import opened LinkParsing

  /** A label starts with the book name `교리와 성약 `. */
  predicate BookHead(s: string) {
    |s| > 7 && s[0] == '교' && s[1] == '리' && s[2] == '와' && s[3] == ' '
    && s[4] == '성' && s[5] == '약' && s[6] == ' '
  }

  /** Where each piece of a chapter-run label sits. */
  lemma RunLabelLayout(s: string, a: string, b: string)
    requires s == ChapterRun(a, b).Label()
    ensures |s| == |a| + |b| + 9
    ensures BookHead(s)
    ensures At(s, 7, a) && s[7 + |a|] == '~' && At(s, 8 + |a|, b) && s[8 + |a| + |b|] == '편'
  {
  }

  /** Where each piece of a single-chapter label sits. */
  lemma ChapterLabelLayout(s: string, a: string)
    requires s == OneChapter(a).Label()
    ensures |s| == |a| + 8
    ensures BookHead(s)
    ensures At(s, 7, a) && s[7 + |a|] == '편'
  {
  }

  /** The book name at the head of a label ends where its chapter numbers begin. */
  lemma BookNameOfLabel(s: string)
    requires BookHead(s) && IsDigit(s[7])
    ensures BookName(s, 0) == Some(7)
  {
    assert s[0..3] == "교리와";
    assert Word(s, 0, "교리와") == Some(3);
    assert !IsSpace(s[4]) && Spaces(s, 4) == 4;
    assert Spaces(s, 3) == 4;
    assert s[4..6] == "성약";
    assert Word(s, 4, "성약") == Some(6);
    assert !IsSpace(s[7]) && Spaces(s, 7) == 7;
    assert Spaces(s, 6) == 7;
  }

  /** The run label matches the first improved scripture pattern at its start. */
  lemma RunLabelMatches(s: string, a: string, b: string)
    requires ChapterRun(a, b).IsWellFormed()
    requires |s| == |a| + |b| + 9
    requires BookHead(s)
    requires At(s, 7, a) && s[7 + |a|] == '~' && At(s, 8 + |a|, b) && s[8 + |a| + |b|] == '편'
    ensures BookChapterRange(s, 0) == Some([a, b])
  {
    var e := 8 + |a| + |b|;
    DigitsAt(s, 7, a);
    BookNameOfLabel(s);
    RunChapterRange(s, a, b);
    RangeAfterBookName(s, 7, e, a, b);
  }

  /** A book name, a chapter run and then `편` straight after it make a match. */
  lemma RangeAfterBookName(s: string, n: nat, e: nat, a: string, b: string)
    requires n <= |s| && BookName(s, 0) == Some(n) && ChapterRange(s, n, true) == Some((e, a, b))
    requires e < |s| && s[e] == '편'
    ensures BookChapterRange(s, 0) == Some([a, b])
  {
    assert !IsSpace(s[e]);
    assert Spaces(s, e) == e;
    assert Lit(s, e, '편') == Some(e + 1);
  }

  /** The chapter run of the label, read from just after the book name. */
  lemma RunChapterRange(s: string, a: string, b: string)
    requires ChapterRun(a, b).IsWellFormed()
    requires |s| == |a| + |b| + 9
    requires At(s, 7, a) && s[7 + |a|] == '~' && At(s, 8 + |a|, b) && s[8 + |a| + |b|] == '편'
    ensures ChapterRange(s, 7, true) == Some((8 + |a| + |b|, a, b))
  {
    var t := 7 + |a|;
    DigitsAt(s, 7, a);
    DigitsAt(s, t + 1, b);
    DigitsInside(s, 7, a, 0);
    DigitsInside(s, t + 1, b, 0);
    assert !IsSpace(s[t]) && Spaces(s, t) == t;
    assert !IsChapterSeparator(s[t + 1]) && RunEnd(s, t + 1, IsChapterSeparator) == t + 1;
    assert OneOrMore(s, t, IsChapterSeparator) == Some(t + 1);
    assert !IsSpace(s[t + 1]) && Spaces(s, t + 1) == t + 1;
  }

  /** The one-chapter label is not a chapter run anywhere. */
  lemma ChapterLabelIsNoRun(s: string, a: string)
    requires OneChapter(a).IsWellFormed()
    requires |s| == |a| + 8
    requires BookHead(s)
    requires At(s, 7, a) && s[7 + |a|] == '편'
    ensures forall k :: 0 <= k <= |s| ==> BookChapterRange(s, k).None?
  {
    DigitsAt(s, 7, a);
    forall k | 0 <= k <= |s| ensures BookChapterRange(s, k).None? {
      if k == 0 {
        assert s[7 + 0] == a[0];
        BookNameOfLabel(s);
        NoRunAfterChapter(s, 7, a);
      } else {
        NoBookNameAt(s, k);
      }
    }
  }

  /** No chapter run starts where the book's name does not. */
  lemma NoBookNameAt(s: string, k: nat)
    requires k <= |s| && (k == |s| || s[k] != '교')
    ensures BookChapterRange(s, k).None?
  {
    assert Word(s, k, "교리와").None?;
  }

  /** Digits followed by `편` are no chapter run. */
  lemma NoRunAfterChapter(s: string, i: nat, a: string)
    requires a != [] && AllDigits(a) && At(s, i, a) && i + |a| < |s| && s[i + |a|] == '편'
    ensures ChapterRange(s, i, true).None?
  {
    DigitsInside(s, i, a, 0);
    assert !IsSpace(s[i + |a|]) && Spaces(s, i + |a|) == i + |a|;
  }

  /** The one-chapter label matches the second improved scripture pattern at its start. */
  lemma ChapterLabelMatches(s: string, a: string)
    requires OneChapter(a).IsWellFormed()
    requires |s| == |a| + 8
    requires BookHead(s)
    requires At(s, 7, a) && s[7 + |a|] == '편'
    ensures BookChapter(s, 0) == Some([a])
  {
    DigitsAt(s, 7, a);
    BookNameOfLabel(s);
    DigitsInside(s, 7, a, 0);
    assert !IsSpace(s[7 + |a|]) && Spaces(s, 7 + |a|) == 7 + |a|;
  }

  lemma RunLabelReadsBack(a: string, b: string)
    requires ChapterRun(a, b).IsWellFormed()
    ensures FirstPattern(ScripturePatterns(true), ChapterRun(a, b).Label()) == Some((0, [a, b]))
  {
    var s := ChapterRun(a, b).Label();
    RunLabelLayout(s, a, b);
    RunLabelMatches(s, a, b);
    SearchFindsFirst(BookChapterRange, s, 0);
  }

  lemma ChapterLabelReadsBack(a: string)
    requires OneChapter(a).IsWellFormed()
    ensures FirstPattern(ScripturePatterns(true), OneChapter(a).Label()) == Some((1, [a]))
  {
    var s := OneChapter(a).Label();
    var ms := ScripturePatterns(true);
    ChapterLabelLayout(s, a);
    ChapterLabelIsNoRun(s, a);
    SearchFails(BookChapterRange, s);
    ChapterLabelMatches(s, a);
    SearchFindsFirst(BookChapter, s, 0);
    assert ms[1..][0] == BookChapter;
    assert FirstPattern(ms[1..], s) == Some((0, [a]));
  }

  /**
   * Reading back the label the improved parser writes gives the same
   * chapters: the label is a fixed point of the scripture normalisation.
   */
  lemma LabelReadsBack(c: Chapters)
    requires c.IsWellFormed()
    ensures ScriptureChapters(c.Label(), true) == Some(c)
  {
    match c
    case ChapterRun(a, b) => RunLabelReadsBack(a, b);
    case OneChapter(a) => ChapterLabelReadsBack(a);
  }

  /** Normalising a scripture label a second time changes nothing. */
  lemma ScriptureLabelIdempotent(text: string)
    requires ScriptureLabel(text, true).Some?
    ensures ScriptureLabel(ScriptureLabel(text, true).value, true) == ScriptureLabel(text, true)
  {
    LabelReadsBack(ScriptureChapters(text, true).value);
  }

  /** No digit before position 7 of a label: number searches start there. */
  lemma NoNumberBeforeChapters(s: string, m: Matcher)
    requires |s| > 7 && forall k :: 0 <= k < 7 ==> !IsDigit(s[k])
    requires m == NumberRange || m == ChapterNumber
    ensures forall k :: 0 <= k < 7 ==> m(s, k).None?
  {
  }

  /**
   * The lesson URL made up from a label names the label's chapters: the
   * numbered "36-doctrine-and-covenants-a-b" page for a run, the
   * "doctrine-and-covenants-a" page for a single chapter.
   */
  lemma UrlOfLabel(c: Chapters, year: int)
    requires c.IsWellFormed()
    ensures UrlFromScripture(c.Label(), year) == BaseUrl + ManualPath + IntStr(year) +
      match c
      case ChapterRun(a, b) => "/36-doctrine-and-covenants-" + a + "-" + b + LangSuffix
      case OneChapter(a) => "/doctrine-and-covenants-" + a + LangSuffix
  {
    var s := c.Label();
    match c
    case ChapterRun(a, b) =>
      RunLabelNumbers(s, a, b);
    case OneChapter(a) =>
      ChapterLabelNumber(s, a);
  }

  /** In a run label the first number range is the run itself. */
  lemma RunLabelNumbers(s: string, a: string, b: string)
    requires ChapterRun(a, b).IsWellFormed() && s == ChapterRun(a, b).Label()
    ensures Search(NumberRange, s) == Some([a, b])
  {
    RunLabelLayout(s, a, b);
    NoNumberBeforeChapters(s, NumberRange);
    DigitsInside(s, 7, a, 0);
    DigitsInside(s, 8 + |a|, b, 0);
    assert NumberRange(s, 7) == Some([a, b]);
    SearchFindsFirst(NumberRange, s, 7);
  }

  /** A one-chapter label holds no number range, and its chapter number is the chapter. */
  lemma ChapterLabelNumber(s: string, a: string)
    requires OneChapter(a).IsWellFormed() && s == OneChapter(a).Label()
    ensures Search(NumberRange, s).None? && Search(ChapterNumber, s) == Some([a])
  {
    ChapterLabelLayout(s, a);
    DigitsAt(s, 7, a);
    assert forall k :: 0 <= k <= |s| ==> NumberRange(s, k).None?;
    SearchFails(NumberRange, s);
    NoNumberBeforeChapters(s, ChapterNumber);
    DigitsInside(s, 7, a, 0);
    assert ChapterNumber(s, 7) == Some([a]);
    SearchFindsFirst(ChapterNumber, s, 7);
  }
}
