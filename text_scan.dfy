/**
 * `parse_from_text_content` (weekly_curriculum_manager.py:219-250): the
 * back-up scan of a page's whole text for four September lessons, used
 * when no link of the page yields a week record.
 */
module TextScan {
  import opened Wrappers
  import opened Dates
  import opened Text
  import opened Patterns
  import opened LinkParsing
  import opened DateRangeProofs
  import opened ScriptureProofs

  /** A September lesson the scan looks for: its days and its chapters. */
  datatype SeptemberLesson = SeptemberLesson(firstDay: nat, lastDay: nat, firstChapter: nat, lastChapter: nat)
  {
    /** The normalised range, "9월D1일~D2일". */
    function DateRange(): string { SameMonthText(9, firstDay, lastDay) }

    /** The chapters, as the link parser labels a run of chapters. */
    function Chapters(): Chapters { ChapterRun(NatStr(firstChapter), NatStr(lastChapter)) }
  }

  const SeptemberLessons: seq<SeptemberLesson> := [
    SeptemberLesson(1, 7, 94, 97),
    SeptemberLesson(8, 14, 98, 101),
    SeptemberLesson(15, 21, 102, 105),
    SeptemberLesson(22, 28, 106, 108)
  ]

  /** `9월\s*D1일\\?~D2일`: the date the lesson opens with; the end of the match. */
  function DatedHead(l: SeptemberLesson, s: string, i: nat): (r: Option<nat>)
    requires i <= |s|
    ensures r.Some? ==> i < r.value <= |s|
  {
    var a :- Word(s, i, "9월");
    var b :- Word(s, Spaces(s, a), NatStr(l.firstDay) + "일");
    var c :- Lit(s, Optional(s, b, '\\'), '~');
    Word(s, c, NatStr(l.lastDay) + "일")
  }

  /** `교리와\s*성약\s*C1\\?~C2편`: the lesson's chapters. */
  function ChapterTail(l: SeptemberLesson, s: string, i: nat): (r: Option<nat>)
    requires i <= |s|
    ensures r.Some? ==> i < r.value <= |s|
  {
    var a :- BookName(s, i);
    var b :- Word(s, a, NatStr(l.firstChapter));
    var c :- Lit(s, Optional(s, b, '\\'), '~');
    Word(s, c, NatStr(l.lastChapter) + "편")
  }

  /**
   * `.*?` followed by the chapters: the chapters start somewhere from `i`
   * on, with no line break before them (`.` does not match a newline).
   */
  function TailOnLine(l: SeptemberLesson, s: string, i: nat): bool
    requires i <= |s|
    decreases |s| - i
  {
    if ChapterTail(l, s, i).Some? then true
    else if i < |s| && s[i] != '\n' then TailOnLine(l, s, i + 1)
    else false
  }

  /** The chapters start at `p`, on the line that runs on from `i`. */
  predicate TailAt(l: SeptemberLesson, s: string, i: nat, p: nat) {
    i <= p <= |s| && ChapterTail(l, s, p).Some? && forall q :: i <= q < p ==> s[q] != '\n'
  }

  /** The tail is found exactly when it starts somewhere later on the same line. */
  lemma {:induction false} TailOnLineIff(l: SeptemberLesson, s: string, i: nat)
    requires i <= |s|
    decreases |s| - i
    ensures TailOnLine(l, s, i) <==> exists p :: TailAt(l, s, i, p)
  {
    if ChapterTail(l, s, i).Some? {
      assert TailAt(l, s, i, i);
    } else if i < |s| && s[i] != '\n' {
      TailOnLineIff(l, s, i + 1);
      if TailOnLine(l, s, i + 1) {
        var p :| TailAt(l, s, i + 1, p);
        assert TailAt(l, s, i, p);
      } else {
        forall p | TailAt(l, s, i, p) ensures TailAt(l, s, i + 1, p) {
          assert p != i;
        }
      }
    } else {
      forall p ensures !TailAt(l, s, i, p) {
        if p != i && i < |s| {
          assert s[i] == '\n';
        }
      }
    }
  }

  /** The whole pattern of one lesson at position `i`; it captures nothing. */
  function SeptemberMatch(l: SeptemberLesson, s: string, i: nat): (r: Option<seq<string>>)
    ensures r.Some? ==> r.value == []
  {
    if i > |s| then None
    else
      var h :- DatedHead(l, s, i);
      if TailOnLine(l, s, h) then Some([]) else None
  }

  /** `re.search` of the lesson's pattern in the page text. */
  predicate LessonFound(l: SeptemberLesson, pageText: string) {
    Search((s: string, i: nat) => SeptemberMatch(l, s, i), pageText).Some?
  }

  /** The record the scan writes for a lesson it found. */
  function ScanRecord(l: SeptemberLesson, year: int, dates: (Date, Date)): WeekRecord {
    WeekRecord(year, dates.0, dates.1, l.DateRange(), l.Chapters().Label(),
      l.DateRange() + l.Chapters().Label(), UrlFromScripture(l.Chapters().Label(), year), "9월")
  }

  /** The records of the lessons in `ls` that the text names and whose dates exist, in order. */
  function ScanRecords(pageText: string, year: int, ls: seq<SeptemberLesson>): seq<WeekRecord>
  {
    if ls == [] then []
    else
      var l := ls[|ls| - 1];
      var before := ScanRecords(pageText, year, ls[..|ls| - 1]);
      if LessonFound(l, pageText) && ParseDateRange(l.DateRange(), year).Some?
      then before + [ScanRecord(l, year, ParseDateRange(l.DateRange(), year).value)]
      else before
  }

  /** `parse_from_text_content`: one pass over the four lessons, appending a record per hit. */
  method ParseFromTextContent(pageText: string, year: int) returns (records: seq<WeekRecord>)
    ensures records == ScanRecords(pageText, year, SeptemberLessons)
  {
    records := ScanLessons(pageText, year, SeptemberLessons);
  }

  /** The loop of `parse_from_text_content` over a list of lessons. */
  method ScanLessons(pageText: string, year: int, lessons: seq<SeptemberLesson>) returns (records: seq<WeekRecord>)
    ensures records == ScanRecords(pageText, year, lessons)
  {
    records := [];
    var i := 0;
    while i < |lessons|
      invariant 0 <= i <= |lessons|
      invariant records == ScanRecords(pageText, year, lessons[..i])
    {
      var l := lessons[i];
      ScanRecordsStep(pageText, year, lessons, i);
      if LessonFound(l, pageText) {
        var dates := ParseDateRange(l.DateRange(), year);
        if dates.Some? {
          records := records + [ScanRecord(l, year, dates.value)];
        }
      }
      i := i + 1;
    }
    assert lessons[..|lessons|] == lessons;
  }

  /** One more lesson adds its record when the text names it and its dates exist. */
  lemma ScanRecordsStep(pageText: string, year: int, lessons: seq<SeptemberLesson>, i: nat)
    requires i < |lessons|
    ensures var l := lessons[i];
      ScanRecords(pageText, year, lessons[..i + 1])
      == if LessonFound(l, pageText) && ParseDateRange(l.DateRange(), year).Some?
         then ScanRecords(pageText, year, lessons[..i]) + [ScanRecord(l, year, ParseDateRange(l.DateRange(), year).value)]
         else ScanRecords(pageText, year, lessons[..i])
  {
    assert lessons[..i + 1][..i] == lessons[..i];
  }

  /** The numbered lesson page of a lesson's chapters. */
  function LessonPage(l: SeptemberLesson, year: int): string {
    BaseUrl + ManualPath + IntStr(year)
    + ("/36-doctrine-and-covenants-" + NatStr(l.firstChapter) + "-" + NatStr(l.lastChapter) + LangSuffix)
  }

  /** `r` is the record of lesson `l`: its September days, its range, its section and page. */
  predicate IsRecordOf(r: WeekRecord, l: SeptemberLesson, year: int) {
    r.year == year && r.start == Date(year, 9, l.firstDay) && r.end == Date(year, 9, l.lastDay)
    && r.weekRange == l.DateRange() && r.section == "9월" && r.lessonUrl == LessonPage(l, year)
  }

  /** The record the scan writes for a lesson is that lesson's record. */
  lemma ScanRecordIsRecordOf(l: SeptemberLesson, year: int)
    requires 1 <= l.firstDay <= 30 && 1 <= l.lastDay <= 30 && MinYear <= year <= MaxYear
    ensures ParseDateRange(l.DateRange(), year) == Some((Date(year, 9, l.firstDay), Date(year, 9, l.lastDay)))
    ensures IsRecordOf(ScanRecord(l, year, ParseDateRange(l.DateRange(), year).value), l, year)
  {
    ParseSameMonthForm(year, 9, l.firstDay, l.lastDay);
    UrlOfLabel(l.Chapters(), year);
  }

  /**
   * In a real year every record of the scan is the record of one of the
   * lessons scanned for, and there is at most one record per lesson.
   */
  lemma {:induction false} ScanRecordsAreLessons(pageText: string, year: int, ls: seq<SeptemberLesson>)
    requires forall l :: l in ls ==> 1 <= l.firstDay <= 30 && 1 <= l.lastDay <= 30
    requires MinYear <= year <= MaxYear
    ensures |ScanRecords(pageText, year, ls)| <= |ls|
    ensures forall r :: r in ScanRecords(pageText, year, ls) ==> exists l :: l in ls && IsRecordOf(r, l, year)
  {
    if ls != [] {
      var l := ls[|ls| - 1];
      var init := ls[..|ls| - 1];
      assert forall l' :: l' in init ==> l' in ls;
      ScanRecordsAreLessons(pageText, year, init);
      ScanRecordIsRecordOf(l, year);
      var before := ScanRecords(pageText, year, init);
      var after := ScanRecords(pageText, year, ls);
      assert after == before || after == before + [ScanRecord(l, year, ParseDateRange(l.DateRange(), year).value)];
      forall r | r in after ensures exists l' :: l' in ls && IsRecordOf(r, l', year) {
        if r in before {
          var l' :| l' in init && IsRecordOf(r, l', year);
          assert l' in ls;
        } else {
          assert IsRecordOf(r, l, year);
        }
      }
    }
  }

  /** A lesson's record lies in September and starts before it ends. */
  lemma RecordOfLessonInSeptember(r: WeekRecord, l: SeptemberLesson, year: int)
    requires l in SeptemberLessons && IsRecordOf(r, l, year)
    ensures r.start.month == 9 && r.end.month == 9 && Before(r.start, r.end) && r.section == "9월"
  {
  }

  /** Every record of the text scan lies in September and starts before it ends. */
  lemma ScanRecordsInSeptember(pageText: string, year: int)
    requires MinYear <= year <= MaxYear
    ensures |ScanRecords(pageText, year, SeptemberLessons)| <= 4
    ensures forall r :: r in ScanRecords(pageText, year, SeptemberLessons) ==>
      r.start.month == 9 && r.end.month == 9 && Before(r.start, r.end) && r.section == "9월"
  {
    var ls := SeptemberLessons;
    ScanRecordsAreLessons(pageText, year, ls);
    forall r | r in ScanRecords(pageText, year, ls)
      ensures r.start.month == 9 && r.end.month == 9 && Before(r.start, r.end) && r.section == "9월"
    {
      var l :| l in ls && IsRecordOf(r, l, year);
      RecordOfLessonInSeptember(r, l, year);
    }
  }
}
