/**
 * The pure parsing rules of the week-table manager
 * (weekly_curriculum_manager.py): date ranges, scripture labels, lesson
 * URLs and section labels, and the two link parsers built from them.
 */
module LinkParsing {
  import opened Wrappers
  import opened Dates
  import opened Text
  import opened Patterns

  const BaseUrl: string := "https://www.churchofjesuschrist.org"
  const ManualPath: string := "/study/manual/come-follow-me-for-home-and-church-doctrine-and-covenants-"
  const LangSuffix: string := "?lang=kor"
  const OtherSection: string := "기타"

  /** One parsed lesson link: a row of the `weekly_curriculum` table. */
  datatype WeekRecord = WeekRecord(
    year: int,
    start: Date,
    end: Date,
    weekRange: string,
    scriptureRange: string,
    lessonTitle: string,
    lessonUrl: string,
    section: string)

  predicate IsDateSeparator(c: char) { c == '~' || c == '-' || c == '–' }

  predicate IsRangeSeparator(c: char) { IsDateSeparator(c) || c == '\\' }

  /** Characters a month-day group can hold: digits, the two unit marks, whitespace. */
  predicate IsDatePartChar(c: char) { IsDigit(c) || c == '월' || c == '일' || IsSpace(c) }

  predicate AllDatePartChars(s: string, i: nat, j: nat)
    requires i <= j <= |s|
  {
    forall k :: i <= k < j ==> IsDatePartChar(s[k])
  }

  // ---------------------------------------------------------------------
  // Building blocks of the date patterns

  /** One or two digits, the month mark, spaces, one or two digits, the day mark. */
  function MonthDay(s: string, i: nat): (r: Option<nat>)
    requires i <= |s|
    ensures r.Some? ==> i < r.value <= |s| && AllDatePartChars(s, i, r.value)
    ensures r.Some? ==> s[r.value - 1] == '일' && LeadingMonth(s[i..r.value])
  {
    var a :- Digits(s, i, 2);
    var b :- Lit(s, a, '월');
    var c :- Digits(s, Spaces(s, b), 2);
    var d :- Lit(s, c, '일');
    Some(d)
  }

  /** One or two digits and the day mark. */
  function DayOnly(s: string, i: nat): (r: Option<nat>)
    requires i <= |s|
    ensures r.Some? ==> i < r.value <= |s| && AllDatePartChars(s, i, r.value)
    ensures r.Some? ==> forall k :: i <= k < r.value ==> s[k] != '월'
  {
    var a :- Digits(s, i, 2);
    var b :- Lit(s, a, '일');
    Some(b)
  }

  /** Text that opens with one or two digits and the month mark. */
  predicate LeadingMonth(s: string) {
    |s| >= 2 && IsDigit(s[0]) && (s[1] == '월' || (|s| >= 3 && IsDigit(s[1]) && s[2] == '월'))
  }

  /** The digits before the month mark of such a text. */
  function LeadingMonthDigits(s: string): (r: string)
    requires LeadingMonth(s)
    ensures 1 <= |r| <= 2 && |r| < |s| && AllDigits(r) && s[..|r|] == r && s[|r|] == '월'
  {
    if s[1] == '월' then s[..1] else s[..2]
  }

  /**
   * Shape of a match of a link date pattern: two groups of date-part
   * characters, the first opening with its month.
   */
  predicate IsDateGroups(g: seq<string>) {
    |g| == 2 && (forall k :: 0 <= k < |g[0]| ==> IsDatePartChar(g[0][k]))
    && (forall k :: 0 <= k < |g[1]| ==> IsDatePartChar(g[1][k]))
    && LeadingMonth(g[0])
  }

  /** Two spans of date-part characters, the first opening with its month, are date groups. */
  lemma DateGroupsAt(s: string, i: nat, a: nat, c: nat, d: nat)
    requires i <= a <= |s| && c <= d <= |s|
    requires AllDatePartChars(s, i, a) && AllDatePartChars(s, c, d) && LeadingMonth(s[i..a])
    ensures IsDateGroups([s[i..a], s[c..d]])
  {
    assert forall k :: 0 <= k < a - i ==> s[i..a][k] == s[i + k];
    assert forall k :: 0 <= k < d - c ==> s[c..d][k] == s[c + k];
  }

  // ---------------------------------------------------------------------
  // The four link date patterns, in the order the improved parser tries them

  /** "M월 D일 ~ M월 D일" with any of the three separators. */
  function CrossMonthSpaced(s: string, i: nat): (r: Option<seq<string>>)
    ensures r.Some? ==> IsDateGroups(r.value)
  {
    if i > |s| then None
    else
      var a :- MonthDay(s, i);
      var b :- OneOf(s, Spaces(s, a), IsDateSeparator);
      var c := Spaces(s, b);
      var d :- MonthDay(s, c);
      DateGroupsAt(s, i, a, c, d);
      Some([s[i..a], s[c..d]])
  }

  /** "M월 D일 ~ D일" with any of the three separators. */
  function SameMonthSpaced(s: string, i: nat): (r: Option<seq<string>>)
    ensures r.Some? ==> IsDateGroups(r.value)
  {
    if i > |s| then None
    else
      var a :- MonthDay(s, i);
      var b :- OneOf(s, Spaces(s, a), IsDateSeparator);
      var c := Spaces(s, b);
      var d :- DayOnly(s, c);
      DateGroupsAt(s, i, a, c, d);
      Some([s[i..a], s[c..d]])
  }

  /** "M월 D일\~D일": an escaped tilde, no spaces around it. */
  function SameMonthEscaped(s: string, i: nat): (r: Option<seq<string>>)
    ensures r.Some? ==> IsDateGroups(r.value)
  {
    if i > |s| then None
    else
      var a :- MonthDay(s, i);
      var b :- Lit(s, Optional(s, a, '\\'), '~');
      var d :- DayOnly(s, b);
      DateGroupsAt(s, i, a, b, d);
      Some([s[i..a], s[b..d]])
  }

  /** "M월 D일\~M월 D일": an escaped tilde, no spaces around it. */
  function CrossMonthEscaped(s: string, i: nat): (r: Option<seq<string>>)
    ensures r.Some? ==> IsDateGroups(r.value)
  {
    if i > |s| then None
    else
      var a :- MonthDay(s, i);
      var b :- Lit(s, Optional(s, a, '\\'), '~');
      var d :- MonthDay(s, b);
      DateGroupsAt(s, i, a, b, d);
      Some([s[i..a], s[b..d]])
  }

  const ImprovedDatePatterns: seq<Matcher> :=
    [CrossMonthSpaced, SameMonthSpaced, SameMonthEscaped, CrossMonthEscaped]

  const BasicDatePatterns: seq<Matcher> := [CrossMonthSpaced, SameMonthSpaced]

  // ---------------------------------------------------------------------
  // parse_date_range

  /** "M월D일~D일" with nothing in between: groups month, first day, last day. */
  function CompactSameMonth(s: string, i: nat): (r: Option<seq<string>>)
    ensures r.Some? ==> |r.value| == 3 && forall k :: 0 <= k < 3 ==> 1 <= |r.value[k]| <= 2 && AllDigits(r.value[k])
  {
    if i > |s| then None
    else
      var a :- Digits(s, i, 2);
      var b :- Lit(s, a, '월');
      var c :- Digits(s, b, 2);
      var d :- Lit(s, c, '일');
      var e :- Lit(s, d, '~');
      var f :- Digits(s, e, 2);
      var _ :- Lit(s, f, '일');
      Some([s[i..a], s[b..c], s[e..f]])
  }

  /** "M월D일~M월D일": groups first month, first day, last month, last day. */
  function CompactCrossMonth(s: string, i: nat): (r: Option<seq<string>>)
    ensures r.Some? ==> |r.value| == 4 && forall k :: 0 <= k < 4 ==> 1 <= |r.value[k]| <= 2 && AllDigits(r.value[k])
  {
    if i > |s| then None
    else
      var a :- Digits(s, i, 2);
      var b :- Lit(s, a, '월');
      var c :- Digits(s, b, 2);
      var d :- Lit(s, c, '일');
      var e :- Lit(s, d, '~');
      var f :- Digits(s, e, 2);
      var g :- Lit(s, f, '월');
      var h :- Digits(s, g, 2);
      var _ :- Lit(s, h, '일');
      Some([s[i..a], s[b..c], s[e..f], s[g..h]])
  }

  /** Both days, when both exist in the calendar; nothing otherwise. */
  function ExistingDays(start: Date, end: Date): Option<(Date, Date)> {
    if IsValid(start) && IsValid(end) then Some((start, end)) else None
  }

  /**
   * `parse_date_range`: the same-month form is tried first, then the
   * cross-month form; both dates are in `year` (no roll-over into the next
   * year).  No match, or a day that does not exist, gives `None`.
   */
  function ParseDateRange(dateRange: string, year: int): (r: Option<(Date, Date)>)
    ensures r.Some? ==> IsValid(r.value.0) && IsValid(r.value.1)
    ensures r.Some? ==> r.value.0.year == year && r.value.1.year == year
    ensures Search(CompactSameMonth, dateRange).Some? ==>
              var g := Search(CompactSameMonth, dateRange).value;
              r == ExistingDays(Date(year, NatOfDigits(g[0]), NatOfDigits(g[1])),
                                Date(year, NatOfDigits(g[0]), NatOfDigits(g[2])))
    ensures Search(CompactSameMonth, dateRange).None? && Search(CompactCrossMonth, dateRange).Some? ==>
              var g := Search(CompactCrossMonth, dateRange).value;
              r == ExistingDays(Date(year, NatOfDigits(g[0]), NatOfDigits(g[1])),
                                Date(year, NatOfDigits(g[2]), NatOfDigits(g[3])))
    ensures Search(CompactSameMonth, dateRange).None? && Search(CompactCrossMonth, dateRange).None? ==>
              r.None?
  {
    match Search(CompactSameMonth, dateRange)
    case Some(g) =>
      var start :- MakeDate(year, NatOfDigits(g[0]), NatOfDigits(g[1]));
      var end :- MakeDate(year, NatOfDigits(g[0]), NatOfDigits(g[2]));
      Some((start, end))
    case None =>
      match Search(CompactCrossMonth, dateRange)
      case Some(g) =>
        var start :- MakeDate(year, NatOfDigits(g[0]), NatOfDigits(g[1]));
        var end :- MakeDate(year, NatOfDigits(g[2]), NatOfDigits(g[3]));
        Some((start, end))
      case None => None
  }

  // ---------------------------------------------------------------------
  // Month marks: `(\d{1,2})월` and `(\d+)월`

  /** A month number and the month mark; `max` bounds the digits as in `Digits`. */
  function MonthMarkFrom(s: string, i: nat, max: nat): (r: Option<seq<string>>)
    ensures r.Some? ==> |r.value| == 1 && r.value[0] != [] && AllDigits(r.value[0])
  {
    if i > |s| then None
    else
      var a :- Digits(s, i, max);
      var _ :- Lit(s, a, '월');
      Some([s[i..a]])
  }

  /** `(\d{1,2})월`. */
  function ShortMonthMark(s: string, i: nat): (r: Option<seq<string>>)
    ensures r.Some? ==> |r.value| == 1 && 1 <= |r.value[0]| <= 2 && AllDigits(r.value[0])
  {
    MonthMarkFrom(s, i, 2)
  }

  /** `(\d+)월`. */
  function MonthMark(s: string, i: nat): (r: Option<seq<string>>)
    ensures r.Some? ==> |r.value| == 1 && r.value[0] != [] && AllDigits(r.value[0])
  {
    MonthMarkFrom(s, i, 0)
  }

  /** In a text that opens with its month, both month searches find that month. */
  lemma LeadingMonthFound(s: string)
    requires LeadingMonth(s)
    ensures Search(ShortMonthMark, s) == Some([LeadingMonthDigits(s)])
    ensures Search(MonthMark, s) == Some([LeadingMonthDigits(s)])
  {
    var n := |LeadingMonthDigits(s)|;
    RunEndExact(s, 0, n, IsDigit);
    assert ShortMonthMark(s, 0) == Some([s[0..n]]);
    assert MonthMark(s, 0) == Some([s[0..n]]);
    SearchFindsFirst(ShortMonthMark, s, 0);
    SearchFindsFirst(MonthMark, s, 0);
  }

  /** Removing a character that is neither a digit nor the month mark keeps the leading month. */
  lemma RemoveKeepsLeadingMonth(s: string, c: char)
    requires LeadingMonth(s) && !IsDigit(c) && c != '월'
    ensures LeadingMonth(Remove(s, c))
    ensures LeadingMonthDigits(Remove(s, c)) == LeadingMonthDigits(s)
  {
    var n := |LeadingMonthDigits(s)|;
    assert Remove(s, c) == [s[0]] + Remove(s[1..], c);
    assert Remove(s[1..], c) == [s[1]] + Remove(s[2..], c);
    if n == 2 {
      assert s[2..][0] == s[2];
      assert Remove(s[2..], c) == [s[2]] + Remove(s[3..], c);
    }
  }

  // ---------------------------------------------------------------------
  // Date normalisation of a link's text

  /** The normalised date range of a link: `start~end`. */
  datatype LinkDate = LinkDate(start: string, end: string) {
    function Text(): string { start + "~" + end }
  }

  /** `.replace(' ', '')`, followed by `.replace('\\', '')` in the improved parser. */
  function CleanPart(g: string, dropBackslash: bool): (r: string)
    ensures ' ' !in r && (dropBackslash ==> '\\' !in r)
    ensures forall x :: x in r ==> x in g
  {
    var t := Remove(g, ' ');
    if dropBackslash then Remove(t, '\\') else t
  }

  lemma CleanPartKeepsLeadingMonth(g: string, dropBackslash: bool)
    requires LeadingMonth(g)
    ensures LeadingMonth(CleanPart(g, dropBackslash))
    ensures LeadingMonthDigits(CleanPart(g, dropBackslash)) == LeadingMonthDigits(g)
  {
    RemoveKeepsLeadingMonth(g, ' ');
    if dropBackslash {
      RemoveKeepsLeadingMonth(Remove(g, ' '), '\\');
    }
  }

  /** The date patterns of one parser, in the order it tries them. */
  function DatePatterns(improved: bool): (ms: seq<Matcher>)
    ensures |ms| == if improved then 4 else 2
  {
    if improved then ImprovedDatePatterns else BasicDatePatterns
  }

  /** Every date pattern yields two date-part groups, the first opening with its month. */
  lemma DatePatternGroups(improved: bool, text: string)
    ensures var r := FirstPattern(DatePatterns(improved), text);
      r.Some? ==> IsDateGroups(r.value.1)
  {
    var ms := DatePatterns(improved);
    var r := FirstPattern(ms, text);
    if r.Some? {
      var q := r.value.0;
      if q == 0 { assert ms[q] == CrossMonthSpaced; }
      else if q == 1 { assert ms[q] == SameMonthSpaced; }
      else if q == 2 { assert ms[q] == SameMonthEscaped; }
      else { assert ms[q] == CrossMonthEscaped; }
    }
  }

  /**
   * An end part without a month gets the start month in front (the
   * start part always opens with its month, so the search for it succeeds).
   */
  function FillEndMonth(start: string, end: string): (r: string)
    requires LeadingMonth(start)
    ensures '월' in r
    ensures '월' in end ==> r == end
    ensures '월' !in end ==> r == LeadingMonthDigits(start) + "월" + end
    ensures forall x :: x in r ==> x in end || IsDigit(x) || x == '월'
  {
    LeadingMonthFound(start);
    if '월' in end then end
    else match Search(ShortMonthMark, start)
      case Some(m) =>
        assert (m[0] + "월" + end)[|m[0]|] == '월';
        m[0] + "월" + end
      case None => assert false; end
  }

  /** A normalised part holds no tilde: its characters come from a date-part group. */
  lemma NoTildeInPart(g: string, dropBackslash: bool)
    requires forall k :: 0 <= k < |g| ==> IsDatePartChar(g[k])
    ensures '~' !in CleanPart(g, dropBackslash)
  {
  }

  /**
   * The date range a link's text names, normalised: the first date pattern
   * that matches wins, its two parts lose their spaces (and, in the
   * improved parser, backslashes), and an end part without a month gets
   * the start month in front.  `None` when no pattern matches.
   */
  function NormaliseLinkDate(text: string, improved: bool): (r: Option<LinkDate>)
    ensures r.Some? <==> FirstPattern(DatePatterns(improved), text).Some?
    ensures r.Some? ==> ' ' !in r.value.start && ' ' !in r.value.end
    ensures r.Some? && improved ==> '\\' !in r.value.start && '\\' !in r.value.end
    ensures r.Some? ==> '~' !in r.value.start && '~' !in r.value.end
    ensures r.Some? ==> LeadingMonth(r.value.start) && '월' in r.value.end
  {
    DatePatternGroups(improved, text);
    var p :- FirstPattern(DatePatterns(improved), text);
    Some(NormaliseGroups(p.1, improved))
  }

  /** The two groups of a date match, cleaned, the end part given its month. */
  function NormaliseGroups(g: seq<string>, improved: bool): (r: LinkDate)
    requires IsDateGroups(g)
    ensures ' ' !in r.start && ' ' !in r.end
    ensures improved ==> '\\' !in r.start && '\\' !in r.end
    ensures '~' !in r.start && '~' !in r.end
    ensures LeadingMonth(r.start) && '월' in r.end
  {
    var start := CleanPart(g[0], improved);
    var end := CleanPart(g[1], improved);
    CleanPartKeepsLeadingMonth(g[0], improved);
    NoTildeInPart(g[0], improved);
    NoTildeInPart(g[1], improved);
    LinkDate(start, FillEndMonth(start, end))
  }

  // ---------------------------------------------------------------------
  // Scripture labels

  /** The marks of a chapter range in a scripture reference: `~`, `-`, `–` and the backslash. */
  predicate IsChapterSeparator(c: char) { IsRangeSeparator(c) }

  /** Groups of a scripture pattern: one or two chapter numbers. */
  predicate IsChapterGroups(g: seq<string>) {
    (|g| == 1 || |g| == 2) && forall k :: 0 <= k < |g| ==> g[k] != [] && AllDigits(g[k])
  }

  /** "교리와", spaces, "성약", spaces: the name of the book. */
  function BookName(s: string, i: nat): (r: Option<nat>)
    requires i <= |s|
    ensures r.Some? ==> i < r.value <= |s|
  {
    var a :- Word(s, i, "교리와");
    var b :- Word(s, Spaces(s, a), "성약");
    Some(Spaces(s, b))
  }

  /** "D&C" and spaces. */
  function ShortBookName(s: string, i: nat): (r: Option<nat>)
    requires i <= |s|
    ensures r.Some? ==> i < r.value <= |s|
  {
    var a :- Word(s, i, "D&C");
    Some(Spaces(s, a))
  }

  /** `(\d+)\s*SEP\s*(\d+)` from `i`, where SEP is `[~\-–\\]+` or `[~\-–]`; the end and both numbers. */
  function ChapterRange(s: string, i: nat, anySeparatorRun: bool): (r: Option<(nat, string, string)>)
    requires i <= |s|
    ensures r.Some? ==> i < r.value.0 <= |s|
    ensures r.Some? ==> r.value.1 != [] && AllDigits(r.value.1) && r.value.2 != [] && AllDigits(r.value.2)
  {
    var a :- Digits(s, i, 0);
    var b :-
      if anySeparatorRun then OneOrMore(s, Spaces(s, a), IsChapterSeparator)
      else OneOf(s, Spaces(s, a), IsDateSeparator);
    var c := Spaces(s, b);
    var d :- Digits(s, c, 0);
    Some((d, s[i..a], s[c..d]))
  }

  /** `교리와\s*성약\s*(\d+)\s*[~\-–\\]+\s*(\d+)\s*편`. */
  function BookChapterRange(s: string, i: nat): (r: Option<seq<string>>)
    ensures r.Some? ==> IsChapterGroups(r.value) && |r.value| == 2
  {
    if i > |s| then None
    else
      var a :- BookName(s, i);
      var m :- ChapterRange(s, a, true);
      var _ :- Lit(s, Spaces(s, m.0), '편');
      Some([m.1, m.2])
  }

  /** `교리와\s*성약\s*(\d+)\s*[~\-–]\s*(\d+)\s*편`, the original parser's form. */
  function BookChapterRangeSingleMark(s: string, i: nat): (r: Option<seq<string>>)
    ensures r.Some? ==> IsChapterGroups(r.value) && |r.value| == 2
  {
    if i > |s| then None
    else
      var a :- BookName(s, i);
      var m :- ChapterRange(s, a, false);
      var _ :- Lit(s, Spaces(s, m.0), '편');
      Some([m.1, m.2])
  }

  /** `교리와\s*성약\s*(\d+)\s*편`. */
  function BookChapter(s: string, i: nat): (r: Option<seq<string>>)
    ensures r.Some? ==> IsChapterGroups(r.value) && |r.value| == 1
  {
    if i > |s| then None
    else
      var a :- BookName(s, i);
      var b :- Digits(s, a, 0);
      var _ :- Lit(s, Spaces(s, b), '편');
      Some([s[a..b]])
  }

  /** `D&C\s*(\d+)\s*[~\-–]\s*(\d+)`. */
  function ShortChapterRange(s: string, i: nat): (r: Option<seq<string>>)
    ensures r.Some? ==> IsChapterGroups(r.value) && |r.value| == 2
  {
    if i > |s| then None
    else
      var a :- ShortBookName(s, i);
      var m :- ChapterRange(s, a, false);
      Some([m.1, m.2])
  }

  /** `D&C\s*(\d+)`. */
  function ShortChapter(s: string, i: nat): (r: Option<seq<string>>)
    ensures r.Some? ==> IsChapterGroups(r.value) && |r.value| == 1
  {
    if i > |s| then None
    else
      var a :- ShortBookName(s, i);
      var b :- Digits(s, a, 0);
      Some([s[a..b]])
  }

  /** `(\d+)\s*[~\-–\\]+\s*(\d+)\s*편`. */
  function BareChapterRange(s: string, i: nat): (r: Option<seq<string>>)
    ensures r.Some? ==> IsChapterGroups(r.value) && |r.value| == 2
  {
    if i > |s| then None
    else
      var m :- ChapterRange(s, i, true);
      var _ :- Lit(s, Spaces(s, m.0), '편');
      Some([m.1, m.2])
  }

  /** `(\d+)\s*편`. */
  function BareChapter(s: string, i: nat): (r: Option<seq<string>>)
    ensures r.Some? ==> IsChapterGroups(r.value) && |r.value| == 1
  {
    if i > |s| then None
    else
      var b :- Digits(s, i, 0);
      var _ :- Lit(s, Spaces(s, b), '편');
      Some([s[i..b]])
  }

  /** The scripture patterns of one parser, in the order it tries them. */
  function ScripturePatterns(improved: bool): (ms: seq<Matcher>)
    ensures |ms| == if improved then 6 else 4
  {
    if improved then
      [BookChapterRange, BookChapter, ShortChapterRange, ShortChapter, BareChapterRange, BareChapter]
    else
      [BookChapterRangeSingleMark, BookChapter, ShortChapterRange, ShortChapter]
  }

  lemma ScripturePatternGroups(improved: bool, text: string)
    ensures var r := FirstPattern(ScripturePatterns(improved), text);
      r.Some? ==> IsChapterGroups(r.value.1)
  {
    var ms := ScripturePatterns(improved);
    var r := FirstPattern(ms, text);
    if r.Some? {
      var q := r.value.0;
      if improved {
        if q == 0 { assert ms[q] == BookChapterRange; }
        else if q == 1 { assert ms[q] == BookChapter; }
        else if q == 2 { assert ms[q] == ShortChapterRange; }
        else if q == 3 { assert ms[q] == ShortChapter; }
        else if q == 4 { assert ms[q] == BareChapterRange; }
        else { assert ms[q] == BareChapter; }
      } else {
        if q == 0 { assert ms[q] == BookChapterRangeSingleMark; }
        else if q == 1 { assert ms[q] == BookChapter; }
        else if q == 2 { assert ms[q] == ShortChapterRange; }
        else { assert ms[q] == ShortChapter; }
      }
    }
  }

  /** The chapters a scripture pattern names. */
  datatype Chapters = ChapterRun(first: string, last: string) | OneChapter(chapter: string) {
    predicate IsWellFormed() {
      match this
      case ChapterRun(a, b) => a != [] && AllDigits(a) && b != [] && AllDigits(b)
      case OneChapter(a) => a != [] && AllDigits(a)
    }

    /** The label the source writes: "교리와 성약 a~b편" or "교리와 성약 a편". */
    function Label(): string {
      match this
      case ChapterRun(a, b) => BookLabel + a + "~" + b + "편"
      case OneChapter(a) => BookLabel + a + "편"
    }
  }

  const BookLabel: string := "교리와 성약 "

  /**
   * The chapters a link's text names: the first scripture pattern that
   * matches wins; two numbers are a run of chapters, one a single chapter.
   * `None` when no pattern matches.
   */
  function ScriptureChapters(text: string, improved: bool): (r: Option<Chapters>)
    ensures r.Some? <==> FirstPattern(ScripturePatterns(improved), text).Some?
    ensures r.Some? ==> r.value.IsWellFormed()
    ensures r.Some? ==> (r.value.ChapterRun? <==> |FirstPattern(ScripturePatterns(improved), text).value.1| == 2)
  {
    ScripturePatternGroups(improved, text);
    var p :- FirstPattern(ScripturePatterns(improved), text);
    var g := p.1;
    if |g| == 2 then Some(ChapterRun(g[0], g[1])) else Some(OneChapter(g[0]))
  }

  /** The scripture label of a link's text, as the record stores it. */
  function ScriptureLabel(text: string, improved: bool): (r: Option<string>)
    ensures r.Some? <==> FirstPattern(ScripturePatterns(improved), text).Some?
    ensures r.Some? ==> StartsWith(r.value, BookLabel) && r.value[|r.value| - 1] == '편'
  {
    match ScriptureChapters(text, improved)
    case None => None
    case Some(c) => LabelShape(c); Some(c.Label())
  }

  /** Every label starts with the book's name and ends with `편`. */
  lemma LabelShape(c: Chapters)
    ensures StartsWith(c.Label(), BookLabel) && c.Label()[|c.Label()| - 1] == '편'
  {
    var l := c.Label();
    assert l[..|BookLabel|] == BookLabel;
  }

  // ---------------------------------------------------------------------
  // URLs and sections

  /** The index page of a year's manual. */
  function ManualIndexUrl(year: int): string { BaseUrl + ManualPath + IntStr(year) + LangSuffix }

  /** `(\d+)~(\d+)`. */
  function NumberRange(s: string, i: nat): (r: Option<seq<string>>)
    ensures r.Some? ==> |r.value| == 2 && r.value[0] != [] && AllDigits(r.value[0]) && r.value[1] != [] && AllDigits(r.value[1])
  {
    if i > |s| then None
    else
      var a :- Digits(s, i, 0);
      var b :- Lit(s, a, '~');
      var c :- Digits(s, b, 0);
      Some([s[i..a], s[b..c]])
  }

  /** `(\d+)편`. */
  function ChapterNumber(s: string, i: nat): (r: Option<seq<string>>)
    ensures r.Some? ==> |r.value| == 1 && r.value[0] != [] && AllDigits(r.value[0])
  {
    if i > |s| then None
    else
      var a :- Digits(s, i, 0);
      var _ :- Lit(s, a, '편');
      Some([s[i..a]])
  }

  /** The part of a made-up lesson URL after the year. */
  function UrlTail(scripture: string): string
  {
    match Search(NumberRange, scripture)
    case Some(g) => "/36-doctrine-and-covenants-" + g[0] + "-" + g[1] + LangSuffix
    case None =>
      match Search(ChapterNumber, scripture)
      case Some(g) => "/doctrine-and-covenants-" + g[0] + LangSuffix
      case None => LangSuffix
  }

  /** `generate_url_from_scripture`: a lesson URL made up from a scripture label. */
  function UrlFromScripture(scripture: string, year: int): (r: string)
    ensures StartsWith(r, BaseUrl + ManualPath + IntStr(year))
    ensures Search(NumberRange, scripture).None? && Search(ChapterNumber, scripture).None? ==> r == ManualIndexUrl(year)
  {
    var prefix := BaseUrl + ManualPath + IntStr(year);
    var r := prefix + UrlTail(scripture);
    assert r[..|prefix|] == prefix;
    r
  }

  /** The section of a lesson: its first month as "N월", or "기타". */
  function SectionLabel(dateRange: string): (r: string)
    ensures r == OtherSection <==> Search(MonthMark, dateRange).None?
  {
    match Search(MonthMark, dateRange)
    case Some(g) =>
      assert (g[0] + "월")[0] == g[0][0];
      g[0] + "월"
    case None => OtherSection
  }

  /** A URL as the link gives it: site-relative links get the site in front. */
  function AbsoluteUrl(href: string): (r: string)
    requires href != []
    ensures href[0] == '/' ==> r == BaseUrl + href
    ensures href[0] != '/' ==> r == href
  {
    if href[0] == '/' then BaseUrl + href else href
  }

  // ---------------------------------------------------------------------
  // The two link parsers

  /**
   * `parse_lesson_link_improved`: a week record from a link's address and
   * text (already stripped), or `None` when the text is empty, names no
   * date range or no scripture, or its dates do not exist.
   */
  function ParseLessonLinkImproved(href: string, text: string, year: int): (r: Option<WeekRecord>)
    ensures r.Some? <==>
      text != [] && NormaliseLinkDate(text, true).Some? && ScriptureLabel(text, true).Some?
      && ParseDateRange(NormaliseLinkDate(text, true).value.Text(), year).Some?
    ensures r.Some? ==> r.value.year == year && r.value.lessonTitle == text
    ensures r.Some? ==> (IsValid(r.value.start) && IsValid(r.value.end)
      && r.value.start.year == year && r.value.end.year == year)
    ensures r.Some? ==>
              (r.value.start, r.value.end) == ParseDateRange(NormaliseLinkDate(text, true).value.Text(), year).value
    ensures r.Some? ==> (r.value.weekRange == NormaliseLinkDate(text, true).value.Text()
      && r.value.scriptureRange == ScriptureLabel(text, true).value)
    ensures r.Some? && href != [] ==> r.value.lessonUrl == AbsoluteUrl(href)
    ensures r.Some? && href == [] ==> r.value.lessonUrl == UrlFromScripture(r.value.scriptureRange, year)
    ensures r.Some? ==> r.value.section == LeadingMonthDigits(NormaliseLinkDate(text, true).value.start) + "월"
  {
    if text == [] then None
    else
      var date :- NormaliseLinkDate(text, true);
      var scripture :- ScriptureLabel(text, true);
      var dates :- ParseDateRange(date.Text(), year);
      var url := if href != [] then AbsoluteUrl(href) else UrlFromScripture(scripture, year);
      SectionOfLinkDate(date);
      Some(WeekRecord(year, dates.0, dates.1, date.Text(), scripture, text, url, SectionLabel(date.Text())))
  }

  /** The section of a normalised range is its start month. */
  lemma SectionOfLinkDate(d: LinkDate)
    requires LeadingMonth(d.start)
    ensures SectionLabel(d.Text()) == LeadingMonthDigits(d.start) + "월"
  {
    var t := d.Text();
    var m := LeadingMonthDigits(d.start);
    assert t[..|d.start|] == d.start;
    assert LeadingMonth(t) && LeadingMonthDigits(t) == m;
    LeadingMonthFound(t);
  }

  /**
   * `parse_lesson_link`, the original parser: it needs both an address and
   * a text, tries only the two spaced date patterns and the four scripture
   * patterns with a single range mark, removes only spaces, and files the
   * lesson under the `month` it is given.
   */
  function ParseLessonLink(href: string, text: string, year: int, month: string): (r: Option<WeekRecord>)
    ensures r.Some? <==>
      href != [] && text != [] && NormaliseLinkDate(text, false).Some? && ScriptureLabel(text, false).Some?
      && ParseDateRange(NormaliseLinkDate(text, false).value.Text(), year).Some?
    ensures r.Some? ==> r.value.year == year && r.value.lessonTitle == text && r.value.section == month
    ensures r.Some? ==> (IsValid(r.value.start) && IsValid(r.value.end)
      && r.value.start.year == year && r.value.end.year == year)
    ensures r.Some? ==>
              (r.value.start, r.value.end) == ParseDateRange(NormaliseLinkDate(text, false).value.Text(), year).value
    ensures r.Some? ==> (r.value.weekRange == NormaliseLinkDate(text, false).value.Text()
      && r.value.scriptureRange == ScriptureLabel(text, false).value)
    ensures r.Some? ==> r.value.lessonUrl == AbsoluteUrl(href)
  {
    if href == [] || text == [] then None
    else
      var date :- NormaliseLinkDate(text, false);
      var scripture :- ScriptureLabel(text, false);
      var dates :- ParseDateRange(date.Text(), year);
      Some(WeekRecord(year, dates.0, dates.1, date.Text(), scripture, text, AbsoluteUrl(href), month))
  }
}
