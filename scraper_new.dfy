/**
 * The lesson lookup of curriculum_scraper_new.py: the week list comes
 * from the store (or, when the store fails, from the 2025 table), the
 * first week holding the date gives the title and the lesson-page URL,
 * and the lesson page is digested into a short text.  Every path answers:
 * a date no week holds gets a placeholder.
 */
module ScraperNew {
  import opened Wrappers
  import opened Dates
  import opened Text
  import opened LinkParsing
  import opened Weeks
  import opened Schedule2025
  import opened Extraction
  import opened WeekStore

  /** The 2025 manual; lesson pages live below it. */
  const ManualBase2025: string := BaseUrl + ManualPath + "2025"
  const IndexUrl2025: string := ManualBase2025 + LangSuffix

  const PlaceholderContent: string := "이번 주 공과는 교리와 성약의 가르침에 관한 내용입니다."
  const NoContent: string := "이번 주 공과의 상세 내용을 가져올 수 없습니다."

  /** What the lookup answers. */
  datatype Curriculum = Curriculum(title: string, content: string, url: string, weekInfo: Option<Week>)

  /** The parts of a lesson page the digest reads, in document order. */
  datatype LessonPage = LessonPage(
    h1: Option<string>, h2: Option<string>, paragraphs: seq<string>, subheadings: seq<string>)

  // ---------------------------------------------------------------------
  // generate_direct_url
  // ---------------------------------------------------------------------

  /** A week's lesson page when its range has a slug, else the manual's index page. */
  function GenerateDirectUrl(w: Week): (url: string)
    ensures StartsWith(url, ManualBase2025)
    ensures w.weekRange in UrlSlugs <==> url != IndexUrl2025
  {
    if w.weekRange in UrlSlugs then
      SlugUrlIsNotIndex(UrlSlugs[w.weekRange]);
      ManualBase2025 + "/" + UrlSlugs[w.weekRange] + LangSuffix
    else IndexUrl2025
  }

  /** A lesson page's URL extends the manual's path with '/', where the index URL has '?'. */
  lemma SlugUrlIsNotIndex(slug: string)
    ensures var url := ManualBase2025 + "/" + slug + LangSuffix;
      StartsWith(url, ManualBase2025) && url != IndexUrl2025
  {
    var url := ManualBase2025 + "/" + slug + LangSuffix;
    assert url[..|ManualBase2025|] == ManualBase2025;
    assert url[|ManualBase2025|] == '/' != IndexUrl2025[|ManualBase2025|];
  }

  /** Every week of the 2025 table gets its own lesson page. */
  lemma TableWeeksHaveLessonPages()
    ensures forall w :: w in Table2025 ==>
      w.weekRange in UrlSlugs && GenerateDirectUrl(w) == ManualBase2025 + "/" + UrlSlugs[w.weekRange] + LangSuffix
  {
    EveryRangeHasSlug();
  }

  /**
   * A week read back from the store names its range with '~', which no
   * slug key uses, so it always gets the index page.
   */
  lemma StoredWeeksGetIndexPage(href: string, text: string, year: int)
    requires ParseLessonLinkImproved(href, text, year).Some?
    ensures GenerateDirectUrl(ToWeek(ParseLessonLinkImproved(href, text, year).value)) == IndexUrl2025
  {
    var r := ParseLessonLinkImproved(href, text, year).value;
    var date := NormaliseLinkDate(text, true).value;
    assert r.weekRange == date.start + "~" + date.end;
    assert r.weekRange[|date.start|] == '~';
    NoTildeInSlugKeys();
  }

  // ---------------------------------------------------------------------
  // get_lesson_content
  // ---------------------------------------------------------------------

  const MaxParagraphs: nat := 15
  const MaxSubheadings: nat := 10

  function Heads(page: LessonPage): (r: seq<string>)
    ensures |r| <= 2
  {
    (if page.h1.Some? then ["제목: " + page.h1.value] else [])
    + (if page.h2.Some? then ["부제목: " + page.h2.value] else [])
  }

  /** The paragraphs of more than 20 characters, in order. */
  function LongParagraphs(ps: seq<string>): (r: seq<string>)
    ensures |r| <= |ps|
    ensures forall k :: 0 <= k < |r| ==> |r[k]| > 20
  {
    if ps == [] then []
    else
      var init := ps[..|ps| - 1];
      var last := ps[|ps| - 1];
      LongParagraphs(init) + (if |last| > 20 then [last] else [])
  }

  /** Every paragraph longer than 20 characters is kept. */
  lemma {:induction false} LongParagraphsComplete(ps: seq<string>)
    ensures forall p :: p in ps && |p| > 20 ==> p in LongParagraphs(ps)
  {
    if ps != [] {
      var init := ps[..|ps| - 1];
      assert ps == init + [ps[|ps| - 1]];
      LongParagraphsComplete(init);
    }
  }

  /** Every kept paragraph is one of the page's. */
  lemma {:induction false} LongParagraphsFromPage(ps: seq<string>)
    ensures forall t :: t in LongParagraphs(ps) ==> t in ps
  {
    if ps != [] {
      var init := ps[..|ps| - 1];
      LongParagraphsFromPage(init);
      assert forall t :: t in init ==> t in ps;
    }
  }

  /** The subheadings of more than 5 characters, each as a "## " line, in order. */
  function SubheadingLines(hs: seq<string>): (r: seq<string>)
    ensures |r| <= |hs|
    ensures forall k :: 0 <= k < |r| ==> |r[k]| > 9 && StartsWith(r[k], "\n## ")
  {
    if hs == [] then []
    else
      var init := hs[..|hs| - 1];
      var last := hs[|hs| - 1];
      SubheadingLines(init) + (if |last| > 5 then ["\n## " + last] else [])
  }

  /** Every h3 longer than 5 characters gets its line. */
  lemma {:induction false} SubheadingLinesComplete(hs: seq<string>)
    ensures forall h :: h in hs && |h| > 5 ==> "\n## " + h in SubheadingLines(hs)
  {
    if hs != [] {
      var init := hs[..|hs| - 1];
      assert hs == init + [hs[|hs| - 1]];
      SubheadingLinesComplete(init);
    }
  }

  /** Every kept line is a subheading of the page of more than five characters. */
  lemma {:induction false} SubheadingLinesFromPage(hs: seq<string>)
    ensures forall t :: t in SubheadingLines(hs) ==> exists h :: h in hs && |h| > 5 && t == "\n## " + h
  {
    if hs != [] {
      var init := hs[..|hs| - 1];
      SubheadingLinesFromPage(init);
      assert forall t :: t in init ==> t in hs;
    }
  }

  function Prefix<T>(s: seq<T>, n: nat): seq<T> {
    if |s| <= n then s else s[..n]
  }

  /** The sections the digest collects: headings, long paragraphs, long subheadings. */
  function Sections(page: LessonPage): (r: seq<string>)
    ensures |r| <= 2 + MaxParagraphs + MaxSubheadings
    ensures forall t :: t in r ==> t != []
  {
    Heads(page) + LongParagraphs(Prefix(page.paragraphs, MaxParagraphs))
    + SubheadingLines(Prefix(page.subheadings, MaxSubheadings))
  }

  /** The digest of a page: its sections joined by blank lines, or the placeholder. */
  function Digest(page: Option<LessonPage>): (r: string)
  {
    if page.None? || Sections(page.value) == [] then NoContent
    else Join(Sections(page.value), "\n\n")
  }

  /** A digest is never empty: the first section, or the placeholder, starts it. */
  lemma {:induction false} JoinStartsWithFirst(parts: seq<string>, sep: string)
    requires parts != []
    ensures StartsWith(Join(parts, sep), parts[0])
  {
    if |parts| > 1 {
      var rest := Join(parts[1..], sep);
      assert Join(parts, sep) == parts[0] + (sep + rest);
    }
  }

  lemma DigestNeverEmpty(page: Option<LessonPage>)
    ensures Digest(page) != []
    ensures page.Some? && Sections(page.value) != [] ==> StartsWith(Digest(page), Sections(page.value)[0])
  {
    if page.Some? && Sections(page.value) != [] {
      JoinStartsWithFirst(Sections(page.value), "\n\n");
      assert Sections(page.value)[0] in Sections(page.value);
    }
  }

  /** The paragraph loop of the digest: paragraphs longer than 20 characters, in order. */
  method KeepLongParagraphs(ps: seq<string>) returns (kept: seq<string>)
    ensures kept == LongParagraphs(ps)
  {
    kept := [];
    var i := 0;
    while i < |ps|
      invariant 0 <= i <= |ps|
      invariant kept == LongParagraphs(ps[..i])
    {
      assert ps[..i + 1][..i] == ps[..i];
      if |ps[i]| > 20 {
        kept := kept + [ps[i]];
      }
      i := i + 1;
    }
    assert ps[..|ps|] == ps;
  }

  /** The sub-heading loop of the digest: one markdown heading per sub-heading longer than 5. */
  method KeepSubheadings(hs: seq<string>) returns (lines: seq<string>)
    ensures lines == SubheadingLines(hs)
  {
    lines := [];
    var j := 0;
    while j < |hs|
      invariant 0 <= j <= |hs|
      invariant lines == SubheadingLines(hs[..j])
    {
      assert hs[..j + 1][..j] == hs[..j];
      if |hs[j]| > 5 {
        lines := lines + ["\n## " + hs[j]];
      }
      j := j + 1;
    }
    assert hs[..|hs|] == hs;
  }

  /**
   * `get_lesson_content`: the page (None when the request fails) digested
   * by the append loops of curriculum_scraper_new.py:582-600.
   */
  method LessonContent(page: Option<LessonPage>) returns (content: string)
    ensures content == Digest(page)
  {
    if page.None? {
      return NoContent;
    }
    var p := page.value;
    var paragraphs := KeepLongParagraphs(Prefix(p.paragraphs, MaxParagraphs));
    var headings := KeepSubheadings(Prefix(p.subheadings, MaxSubheadings));
    var sections := Heads(p) + paragraphs + headings;
    if sections == [] {
      sections := [NoContent];
    }
    content := Join(sections, "\n\n");
  }

  // ---------------------------------------------------------------------
  // get_curriculum_by_date
  // ---------------------------------------------------------------------

  /** `strftime('%m')` / `strftime('%d')`: two digits, zero-padded. */
  function TwoDigits(n: nat): (r: string)
    requires n < 100
    ensures |r| == 2 && AllDigits(r) && NatOfDigits(r) == n
  {
    NatStrRoundTrip(n);
    if n < 10 then "0" + NatStr(n) else NatStr(n)
  }

  /** The title used when no week is found: "2025년 MM월 DD일 주차 공과". */
  function PlaceholderTitle(d: Date): string
    requires IsValid(d)
  {
    "2025년 " + TwoDigits(d.month) + "월 " + TwoDigits(d.day) + "일 주차 공과"
  }

  function Placeholder(d: Date): Curriculum
    requires IsValid(d)
  {
    Curriculum(PlaceholderTitle(d), PlaceholderContent, IndexUrl2025, None)
  }

  /** The answer for a week found: "range: keywords", its direct URL and that page's digest. */
  function Matched(w: Week, fetchPage: string -> Option<LessonPage>): Curriculum {
    var url := GenerateDirectUrl(w);
    Curriculum(w.weekRange + ": " + w.titleKeywords, Digest(fetchPage(url)), url, Some(w))
  }

  /** The answer the lookup gives over a week list. */
  function CurriculumFor(weeks: seq<Week>, d: Date, fetchPage: string -> Option<LessonPage>): (r: Curriculum)
    requires IsValid(d)
    ensures r.weekInfo.Some? <==> exists k :: 0 <= k < |weeks| && Covers(weeks[k], d)
    ensures r.weekInfo.Some? ==>
              Covers(r.weekInfo.value, d) && r.weekInfo.value in weeks && r == Matched(r.weekInfo.value, fetchPage)
    ensures r.weekInfo.None? ==> r == Placeholder(d)
    ensures r.weekInfo.Some? ==>
              exists k :: 0 <= k < |weeks| && weeks[k] == r.weekInfo.value
                && Covers(weeks[k], d) && forall j :: 0 <= j < k ==> !Covers(weeks[j], d)
  {
    match FirstCovering(weeks, d)
    case Some(k) => Matched(weeks[k], fetchPage)
    case None => Placeholder(d)
  }

  /** The week list the lookup uses when the store raises. */
  function StaticMapping(year: int): (r: seq<Week>)
    ensures year != 2025 ==> r == []
  {
    if year == 2025 then Table2025 else []
  }

  /**
   * `get_week_mapping_from_db`: the store's weeks after making sure the
   * year is loaded; when the store is unusable, the 2025 table for 2025
   * and nothing otherwise.
   */
  method WeekMappingFromDb(db: CurriculumDb, year: int, fetch: nat -> FetchOutcome, now: int, dbAvailable: bool)
    returns (weeks: seq<Week>)
    requires db.Valid()
    modifies db
    ensures db.Valid()
    ensures !dbAvailable ==> weeks == StaticMapping(year) && db.rows == old(db.rows) && db.status == old(db.status)
    ensures dbAvailable ==> IsWeeksOf(weeks, db.rows, year)
    ensures dbAvailable && old(db.YearReady(year)) ==> db.rows == old(db.rows) && db.status == old(db.status)
    ensures dbAvailable && !old(db.YearReady(year)) ==> (
              var data := ToSave(year, fetch);
              if data != [] && DistinctKeys(Without(old(db.rows), year) + data)
              then db.rows == Without(old(db.rows), year) + data
                   && db.status == old(db.status)[year := YearStatus(now, |data|, Completed)]
              else db.rows == old(db.rows) && db.status == old(db.status))
  {
    if !dbAvailable {
      return StaticMapping(year);
    }
    var _ := db.EnsureYearData(year, fetch, now);
    weeks := db.GetWeeklyData(year);
  }

  /**
   * `get_curriculum_by_date`: the first week of the year's list holding
   * the date, or the placeholder.  The no-match branch of the source names
   * an undefined variable; the resulting exception lands in the handler,
   * whose answer is the placeholder with the index URL.
   */
  method GetCurriculumByDate(
    db: CurriculumDb, target: Date, fetch: nat -> FetchOutcome, now: int, dbAvailable: bool,
    fetchPage: string -> Option<LessonPage>)
    returns (info: Curriculum)
    requires db.Valid() && IsValid(target)
    modifies db
    ensures db.Valid()
    ensures info.weekInfo.Some? ==> (Covers(info.weekInfo.value, target)
      && info == Matched(info.weekInfo.value, fetchPage))
    ensures info.weekInfo.None? ==> info == Placeholder(target)
    ensures !dbAvailable ==> info == CurriculumFor(StaticMapping(target.year), target, fetchPage)
    ensures !dbAvailable ==> db.rows == old(db.rows) && db.status == old(db.status)
    ensures dbAvailable ==>
              exists weeks :: IsWeeksOf(weeks, db.rows, target.year) && info == CurriculumFor(weeks, target, fetchPage)
    ensures dbAvailable && old(db.YearReady(target.year)) ==> db.rows == old(db.rows) && db.status == old(db.status)
    ensures dbAvailable && !old(db.YearReady(target.year)) ==> (
              var data := ToSave(target.year, fetch);
              if data != [] && DistinctKeys(Without(old(db.rows), target.year) + data)
              then db.rows == Without(old(db.rows), target.year) + data
                   && db.status == old(db.status)[target.year := YearStatus(now, |data|, Completed)]
              else db.rows == old(db.rows) && db.status == old(db.status))
  {
    var weeks := WeekMappingFromDb(db, target.year, fetch, now, dbAvailable);
    var index := FindWeek(weeks, target);
    if index.Some? {
      var w := weeks[index.value];
      var url := GenerateDirectUrl(w);
      var content := LessonContent(fetchPage(url));
      info := Curriculum(w.weekRange + ": " + w.titleKeywords, content, url, Some(w));
    } else {
      info := Placeholder(target);
    }
    assert info == CurriculumFor(weeks, target, fetchPage);
  }

  /** Without the store, every day of 2025 finds its week of the table and that week's lesson page. */
  lemma StaticLookupFindsEvery2025Day(d: Date, fetchPage: string -> Option<LessonPage>)
    requires IsValid(d) && d.year == 2025
    ensures CurriculumFor(StaticMapping(d.year), d, fetchPage).weekInfo.Some?
    ensures CurriculumFor(StaticMapping(d.year), d, fetchPage).url != IndexUrl2025
  {
    EveryDayOf2025Covered(d);
    EveryRangeHasSlug();
    var w := CurriculumFor(Table2025, d, fetchPage).weekInfo.value;
    assert w.weekRange in UrlSlugs;
  }

  // ---------------------------------------------------------------------
  // get_available_weeks
  // ---------------------------------------------------------------------

  /** A week as offered for selection, with its display text. */
  datatype WeekChoice = WeekChoice(
    weekRange: string, titleKeywords: string, start: Date, end: Date, section: string, displayText: string)

  /** `get_available_weeks` over the year's week list: one choice per week, in order. */
  method AvailableWeeks(weeks: seq<Week>) returns (choices: seq<WeekChoice>)
    ensures |choices| == |weeks|
    ensures forall k :: 0 <= k < |weeks| ==> (
      var w, c := weeks[k], choices[k];
      c.weekRange == w.weekRange && c.titleKeywords == w.titleKeywords && c.start == w.start
      && c.end == w.end && c.section == w.section && c.displayText == w.weekRange + " - " + w.titleKeywords)
  {
    choices := [];
    var i := 0;
    while i < |weeks|
      invariant 0 <= i <= |weeks| && |choices| == i
      invariant forall k :: 0 <= k < i ==> (
        var w, c := weeks[k], choices[k];
        c.weekRange == w.weekRange && c.titleKeywords == w.titleKeywords && c.start == w.start
        && c.end == w.end && c.section == w.section && c.displayText == w.weekRange + " - " + w.titleKeywords)
    {
      var w := weeks[i];
      choices := choices + [WeekChoice(w.weekRange, w.titleKeywords, w.start, w.end, w.section,
        w.weekRange + " - " + w.titleKeywords)];
      i := i + 1;
    }
  }

  // ---------------------------------------------------------------------
  // get_weekly_curriculum_list
  // ---------------------------------------------------------------------

  /** The href filter: the 2025 manual's lesson-page path. */
  const LessonPathMark: string := "/study/manual/come-follow-me-for-home-and-church-doctrine-and-covenants-2025/"

  predicate IsLessonLink(l: Link) {
    Contains(l.href, LessonPathMark) && l.text != [] && l.href != []
  }

  /** The (title, absolute URL) pairs of the lesson links, in page order. */
  function LessonLinks(links: seq<Link>): (r: seq<(string, string)>)
    ensures |r| <= |links|
    ensures forall k :: 0 <= k < |r| ==>
      r[k].0 != [] && (exists l :: l in links && IsLessonLink(l) && r[k] == (l.text, BaseUrl + l.href))
  {
    if links == [] then []
    else
      var init := links[..|links| - 1];
      var last := links[|links| - 1];
      assert forall l :: l in init ==> l in links;
      LessonLinks(init) + (if IsLessonLink(last) then [(last.text, BaseUrl + last.href)] else [])
  }

  /** Every lesson link of the page is listed. */
  lemma {:induction false} LessonLinksComplete(links: seq<Link>)
    ensures forall l :: l in links && IsLessonLink(l) ==> (l.text, BaseUrl + l.href) in LessonLinks(links)
  {
    if links != [] {
      var init := links[..|links| - 1];
      assert links == init + [links[|links| - 1]];
      LessonLinksComplete(init);
    }
  }

  /** `get_weekly_curriculum_list`: the index page's lesson links, or nothing when the request fails. */
  method WeeklyCurriculumList(page: Option<seq<Link>>) returns (list: seq<(string, string)>)
    ensures page.None? ==> list == []
    ensures page.Some? ==> list == LessonLinks(page.value)
  {
    if page.None? {
      return [];
    }
    var links := page.value;
    list := [];
    var i := 0;
    while i < |links|
      invariant 0 <= i <= |links|
      invariant list == LessonLinks(links[..i])
    {
      assert links[..i + 1][..i] == links[..i];
      var l := links[i];
      if IsLessonLink(l) {
        list := list + [(l.text, BaseUrl + l.href)];
      }
      i := i + 1;
    }
    assert links[..|links|] == links;
  }
}
