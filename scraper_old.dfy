/**
 * The lesson lookup of curriculum_scraper.py, the older twin of the new
 * scraper.  Its Korean literals survive only as encoding-damaged bytes, so
 * a week's range text, keywords and section are represented here by the
 * week's position in the table (its key), and the url table is keyed the
 * same way.  Its 53 date pairs are those of the 2025 table; the lookup
 * searches that table only, never a store, whatever the year of the date.
 */
module ScraperOld {
  import opened Wrappers
  import opened Dates
  import opened Text
  import opened Weeks
  import opened Schedule2025
  import opened LinkParsing
  import opened ScraperNew

  /** A row of the old table: its dates and the key standing for its texts. */
  datatype OldWeek = OldWeek(start: Date, end: Date, key: nat)

  predicate OldCovers(w: OldWeek, d: Date) {
    InRange(d, w.start, w.end)
  }

  /** Rows carrying the dates of `weeks`, in the same order, each keyed by its position. */
  function OldRows(weeks: seq<Week>): (r: seq<OldWeek>)
    ensures |r| == |weeks|
    ensures forall k :: 0 <= k < |r| ==> r[k] == OldWeek(weeks[k].start, weeks[k].end, k)
  {
    seq(|weeks|, k requires 0 <= k < |weeks| => OldWeek(weeks[k].start, weeks[k].end, k))
  }

  /** The old table (`get_week_mapping_2025`): the dates of the 2025 table. */
  const OldTable: seq<OldWeek> := OldRows(Table2025)

  const OldDecemberSlugs: seq<string> := [
    "52-doctrine-and-covenants-137-138",
    "51-doctrine-and-covenants-135-136",
    "50-doctrine-and-covenants-133-134",
    "49-doctrine-and-covenants-131-132",
    "48-doctrine-and-covenants-129-130"
  ]

  const OldNovemberSlugs: seq<string> := [
    "47-doctrine-and-covenants-127-128",
    "46-doctrine-and-covenants-125-126",
    "45-doctrine-and-covenants-123-124",
    "44-doctrine-and-covenants-121-122"
  ]

  const OldOctoberSlugs: seq<string> := [
    "43-doctrine-and-covenants-119-120",
    "42-doctrine-and-covenants-117-118",
    "41-doctrine-and-covenants-115-116",
    "40-doctrine-and-covenants-113-114"
  ]

  const OldSeptemberSlugs: seq<string> := [
    "39-doctrine-and-covenants-111-112",
    "38-doctrine-and-covenants-109-110",
    "37-doctrine-and-covenants-107-108",
    "36-doctrine-and-covenants-105-106",
    "35-doctrine-and-covenants-103-104"
  ]

  const OldAugustSlugs: seq<string> := [
    "34-doctrine-and-covenants-101-102",
    "33-doctrine-and-covenants-99-100",
    "32-doctrine-and-covenants-97-98",
    "31-doctrine-and-covenants-95-96"
  ]

  const OldJulySlugs: seq<string> := [
    "31-doctrine-and-covenants-84-86",
    "30-doctrine-and-covenants-81-83",
    "29-doctrine-and-covenants-77-80",
    "28-doctrine-and-covenants-76",
    "27-doctrine-and-covenants-71-75"
  ]

  const OldJuneSlugs: seq<string> := [
    "26-doctrine-and-covenants-67-70",
    "25-doctrine-and-covenants-65-66",
    "24-doctrine-and-covenants-63-64",
    "23-doctrine-and-covenants-60-62"
  ]

  const OldMaySlugs: seq<string> := [
    "22-doctrine-and-covenants-58-59",
    "21-doctrine-and-covenants-56-57",
    "20-doctrine-and-covenants-54-55",
    "19-doctrine-and-covenants-51-53"
  ]

  const OldAprilSlugs: seq<string> := [
    "18-doctrine-and-covenants-49-50",
    "17-doctrine-and-covenants-46-48",
    "16-doctrine-and-covenants-43-45",
    "15-doctrine-and-covenants-41-42",
    "14-doctrine-and-covenants-38-40"
  ]

  const OldMarchSlugs: seq<string> := [
    "13-doctrine-and-covenants-37",
    "12-doctrine-and-covenants-35-36",
    "11-doctrine-and-covenants-33-34",
    "10-doctrine-and-covenants-30-32"
  ]

  const OldFebruarySlugs: seq<string> := [
    "09-doctrine-and-covenants-27-29",
    "08-doctrine-and-covenants-25-26",
    "07-doctrine-and-covenants-23-24",
    "06-doctrine-and-covenants-20-22"
  ]

  const OldJanuarySlugs: seq<string> := [
    "05-doctrine-and-covenants-17-19",
    "04-doctrine-and-covenants-14-16",
    "03-doctrine-and-covenants-11-13",
    "02-doctrine-and-covenants-8-10",
    "01-doctrine-and-covenants-1-7"
  ]

  /** The slugs of the old url table, in table order (December first). */
  const OldSlugList: seq<string> :=
    OldDecemberSlugs + OldNovemberSlugs + OldOctoberSlugs + OldSeptemberSlugs + OldAugustSlugs + OldJulySlugs
    + OldJuneSlugs + OldMaySlugs + OldAprilSlugs + OldMarchSlugs + OldFebruarySlugs + OldJanuarySlugs

  /** The old url table, from row key to slug. */
  const OldSlugs: map<nat, string> := map k | 0 <= k < |OldSlugList| :: OldSlugList[k]

  /** `generate_direct_url` of the old file: the row's lesson page when its key has a slug, else the index page. */
  function OldDirectUrl(w: OldWeek): (url: string)
    ensures StartsWith(url, ManualBase2025)
    ensures w.key in OldSlugs <==> url != IndexUrl2025
  {
    if w.key in OldSlugs then ManualBase2025 + "/" + OldSlugs[w.key] + LangSuffix
    else IndexUrl2025
  }

  /** Every row of the old table has a slug, so every week found gets a lesson page. */
  lemma OldTableWeeksHaveLessonPages()
    ensures |OldTable| == |OldSlugList| == 53
    ensures forall w :: w in OldTable ==> OldDirectUrl(w) != IndexUrl2025
  {
    TableIsChain();
  }

  /** The index of the first row in table order whose span holds `d`. */
  function FirstOldCovering(table: seq<OldWeek>, d: Date): (r: Option<nat>)
    ensures r.Some? ==> (r.value < |table| && OldCovers(table[r.value], d)
      && forall k :: 0 <= k < r.value ==> !OldCovers(table[k], d))
    ensures r.None? <==> forall k :: 0 <= k < |table| ==> !OldCovers(table[k], d)
  {
    if table == [] then None
    else if OldCovers(table[0], d) then Some(0)
    else
      match FirstOldCovering(table[1..], d)
      case Some(i) => Some(i + 1)
      case None => None
  }

  /** The search loop of the old `get_curriculum_by_date`. */
  method FindOldWeek(table: seq<OldWeek>, d: Date) returns (index: Option<nat>)
    ensures index == FirstOldCovering(table, d)
  {
    var i := 0;
    while i < |table|
      invariant 0 <= i <= |table|
      invariant forall k :: 0 <= k < i ==> !OldCovers(table[k], d)
    {
      if OldCovers(table[i], d) {
        return Some(i);
      }
      i := i + 1;
    }
    return None;
  }

  /** Rows keep their weeks' dates, so the first-match search picks the same index over both. */
  lemma OldRowsFindSameWeek(weeks: seq<Week>, d: Date)
    ensures FirstOldCovering(OldRows(weeks), d) == FirstCovering(weeks, d)
  {
    var rows := OldRows(weeks);
    assert forall k :: 0 <= k < |weeks| ==> (OldCovers(rows[k], d) <==> Covers(weeks[k], d));
  }

  /**
   * What the old lookup answers.  `Found` stands for the answer
   * "{range}: {keywords}" of the row with that key, with its lesson page
   * and that page's digest; `NotFound` for the placeholder dated `date`.
   */
  datatype OldCurriculum =
    | Found(week: OldWeek, content: string, url: string)
    | NotFound(date: Date, url: string)

  /** The answer of the old lookup over a table, as a function of the date and the lesson pages. */
  function OldAnswer(table: seq<OldWeek>, d: Date, fetchPage: string -> Option<LessonPage>): (r: OldCurriculum)
    ensures r.Found? <==> exists k :: 0 <= k < |table| && OldCovers(table[k], d)
    ensures r.Found? ==> r.week in table && OldCovers(r.week, d) && r.content == Digest(fetchPage(r.url))
    ensures r.NotFound? ==> r == NotFound(d, IndexUrl2025)
  {
    match FirstOldCovering(table, d)
    case Some(k) =>
      var url := OldDirectUrl(table[k]);
      Found(table[k], Digest(fetchPage(url)), url)
    case None => NotFound(d, IndexUrl2025)
  }

  /**
   * `get_curriculum_by_date` of the old file: the first row of the static
   * table holding the date, or the placeholder with the index URL.  The
   * no-match branch uses the index URL assigned at the top of the method.
   */
  method GetCurriculumByDateOld(target: Date, fetchPage: string -> Option<LessonPage>)
    returns (info: OldCurriculum)
    ensures info == OldAnswer(OldTable, target, fetchPage)
  {
    var url := IndexUrl2025;
    var index := FindOldWeek(OldTable, target);
    if index.Some? {
      var w := OldTable[index.value];
      var lessonUrl := OldDirectUrl(w);
      var content := LessonContent(fetchPage(lessonUrl));
      return Found(w, content, lessonUrl);
    }
    return NotFound(target, url);
  }

  /** Over rows built from a week list, a date some week holds finds that week's row and a slug when the url table reaches it. */
  lemma RowsAnswerFound(weeks: seq<Week>, d: Date, fetchPage: string -> Option<LessonPage>)
    requires FirstCovering(weeks, d).Some?
    ensures OldAnswer(OldRows(weeks), d, fetchPage).Found?
    ensures OldAnswer(OldRows(weeks), d, fetchPage).week.key == FirstCovering(weeks, d).value
    ensures |weeks| <= |OldSlugList| ==> OldAnswer(OldRows(weeks), d, fetchPage).url != IndexUrl2025
  {
    OldRowsFindSameWeek(weeks, d);
  }

  /** Every day of 2025 finds its row, the same row the new table gives it, and a lesson page. */
  lemma OldLookupFindsEvery2025Day(d: Date, fetchPage: string -> Option<LessonPage>)
    requires IsValid(d) && d.year == 2025
    ensures OldAnswer(OldTable, d, fetchPage).Found?
    ensures OldAnswer(OldTable, d, fetchPage).week.key == FirstCovering(Table2025, d).value
    ensures OldAnswer(OldTable, d, fetchPage).url != IndexUrl2025
  {
    EveryDayOf2025Covered(d);
    TableIsChain();
    assert |OldSlugList| == 53;
    RowsAnswerFound(Table2025, d, fetchPage);
  }

  /** A date outside 2025 falls through to the placeholder. */
  lemma OldLookupOutside2025(d: Date, fetchPage: string -> Option<LessonPage>)
    requires d.year != 2025
    ensures OldAnswer(OldTable, d, fetchPage) == NotFound(d, IndexUrl2025)
  {
    TableIsChain();
    forall k | 0 <= k < |OldTable|
      ensures !OldCovers(OldTable[k], d)
    {
      ChainWithinSpan(Table2025, Date(2025, 1, 1), Date(2025, 12, 31), k);
    }
  }

  /** A week offered for selection: its row key (standing for its texts) and dates. */
  datatype OldChoice = OldChoice(key: nat, start: Date, end: Date)

  /** `get_available_weeks` of the old file: one choice per row of the static table, in order. */
  method AvailableWeeksOld() returns (choices: seq<OldChoice>)
    ensures |choices| == |OldTable|
    ensures forall k :: 0 <= k < |OldTable| ==>
      choices[k] == OldChoice(k, OldTable[k].start, OldTable[k].end)
  {
    choices := [];
    var i := 0;
    while i < |OldTable|
      invariant 0 <= i <= |OldTable| && |choices| == i
      invariant forall k :: 0 <= k < i ==> choices[k] == OldChoice(k, OldTable[k].start, OldTable[k].end)
    {
      var w := OldTable[i];
      choices := choices + [OldChoice(w.key, w.start, w.end)];
      i := i + 1;
    }
  }
}
