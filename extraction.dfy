/**
 * `extract_weekly_data_from_website` (weekly_curriculum_manager.py:42-123):
 * up to three fetches of the year's index page with a doubling delay, the
 * doctrine-link filter, the per-link parse and the text scan used when no
 * link yields a record, and the fallback data after the last failure.
 * The network is a function from attempt number to what that attempt got.
 */
module Extraction {
  import opened Wrappers
  import opened Dates
  import opened Text
  import opened LinkParsing
  import opened TextScan
  import opened FallbackData

  /** An `<a href>` of the index page: its href and its stripped text. */
  datatype Link = Link(href: string, text: string)

  /** What the parser uses of a fetched index page: its links in document order and its text. */
  datatype IndexPage = IndexPage(links: seq<Link>, text: string)

  /** One request: the page, or a request error (connection, timeout or an HTTP error status). */
  datatype FetchOutcome = Fetched(page: IndexPage) | FetchFailed

  const MaxRetries: nat := 3
  const FirstRetryDelay: nat := 2

  /** Every record was made for `year`. */
  predicate AllOfYear(rs: seq<WeekRecord>, year: int) {
    forall k :: 0 <= k < |rs| ==> rs[k].year == year
  }

  /** The filter of weekly_curriculum_manager.py:101-102. */
  predicate IsDoctrineLink(l: Link, year: int) {
    (Contains(l.href, "doctrine-and-covenants") && year == 2025)
    || (Contains(l.text, "교리와") && (Contains(l.text, "편") || Contains(l.text, "D&C")))
  }

  /** The links the filter keeps, in page order. */
  function DoctrineLinks(links: seq<Link>, year: int): (r: seq<Link>)
    ensures |r| <= |links|
    ensures forall l :: l in r <==> l in links && IsDoctrineLink(l, year)
  {
    if links == [] then []
    else
      var last := links[|links| - 1];
      var init := links[..|links| - 1];
      assert links == init + [last];
      DoctrineLinks(init, year) + (if IsDoctrineLink(last, year) then [last] else [])
  }

  /** The filter loop of weekly_curriculum_manager.py:95-102. */
  method FilterDoctrineLinks(links: seq<Link>, year: int) returns (kept: seq<Link>)
    ensures kept == DoctrineLinks(links, year)
  {
    kept := [];
    var i := 0;
    while i < |links|
      invariant 0 <= i <= |links|
      invariant kept == DoctrineLinks(links[..i], year)
    {
      assert links[..i + 1][..i] == links[..i];
      if IsDoctrineLink(links[i], year) {
        kept := kept + [links[i]];
      }
      i := i + 1;
    }
    assert links[..|links|] == links;
  }

  /** The present results of `f` over `xs`, in order. */
  function Collect<T, R>(xs: seq<T>, f: T -> Option<R>): (r: seq<R>)
    ensures |r| <= |xs|
  {
    if xs == [] then []
    else
      var before := Collect(xs[..|xs| - 1], f);
      match f(xs[|xs| - 1])
      case Some(y) => before + [y]
      case None => before
  }

  /** One more element adds its result, if it has one. */
  lemma CollectStep<T, R>(xs: seq<T>, i: nat, f: T -> Option<R>)
    requires i < |xs|
    ensures f(xs[i]).Some? ==> Collect(xs[..i + 1], f) == Collect(xs[..i], f) + [f(xs[i]).value]
    ensures f(xs[i]).None? ==> Collect(xs[..i + 1], f) == Collect(xs[..i], f)
  {
    assert xs[..i + 1][..i] == xs[..i];
  }

  /** Every collected result is the result of some element. */
  lemma {:induction false} CollectedFrom<T, R>(xs: seq<T>, f: T -> Option<R>)
    ensures forall y :: y in Collect(xs, f) ==> exists x :: x in xs && f(x) == Some(y)
  {
    if xs != [] {
      var init := xs[..|xs| - 1];
      assert xs == init + [xs[|xs| - 1]];
      CollectedFrom(init, f);
    }
  }

  /** The improved link parse, for one year. */
  function LinkParse(year: int): Link -> Option<WeekRecord> {
    (l: Link) => ParseLessonLinkImproved(l.href, l.text, year)
  }

  /** The records the improved link parse yields, in link order. */
  function LinkRecords(links: seq<Link>, year: int): seq<WeekRecord> {
    Collect(links, LinkParse(year))
  }

  /** Every record is the parse of one of the links. */
  lemma LinkRecordsAreParses(links: seq<Link>, year: int)
    ensures forall rec :: rec in LinkRecords(links, year) ==>
      exists l :: l in links && ParseLessonLinkImproved(l.href, l.text, year) == Some(rec)
  {
    CollectedFrom(links, LinkParse(year));
    forall rec | rec in LinkRecords(links, year)
      ensures exists l :: l in links && ParseLessonLinkImproved(l.href, l.text, year) == Some(rec)
    {
      var l :| l in links && LinkParse(year)(l) == Some(rec);
      assert ParseLessonLinkImproved(l.href, l.text, year) == Some(rec);
    }
  }

  /** Every record the link parse yields is dated in the year asked for. */
  lemma LinkRecordsOfYear(links: seq<Link>, year: int)
    ensures AllOfYear(LinkRecords(links, year), year)
  {
    LinkRecordsAreParses(links, year);
    var rs := LinkRecords(links, year);
    forall k | 0 <= k < |rs| ensures rs[k].year == year {
      assert rs[k] in rs;
    }
  }

  /** The parse loop of weekly_curriculum_manager.py:107-111. */
  method ParseLinks(links: seq<Link>, year: int) returns (records: seq<WeekRecord>)
    ensures records == LinkRecords(links, year)
  {
    records := [];
    var i := 0;
    while i < |links|
      invariant 0 <= i <= |links|
      invariant records == LinkRecords(links[..i], year)
    {
      var link := links[i];
      var parsed := ParseLessonLinkImproved(link.href, link.text, year);
      CollectStep(links, i, LinkParse(year));
      if parsed.Some? {
        records := records + [parsed.value];
      }
      i := i + 1;
    }
    assert links[..|links|] == links;
  }

  lemma {:induction false} ScanRecordsOfYear(pageText: string, year: int, ls: seq<SeptemberLesson>)
    ensures AllOfYear(ScanRecords(pageText, year, ls), year)
  {
    if ls != [] {
      var init := ls[..|ls| - 1];
      ScanRecordsOfYear(pageText, year, init);
      var before := ScanRecords(pageText, year, init);
      var all := ScanRecords(pageText, year, ls);
      assert all == before || (|all| == |before| + 1 && all[..|before|] == before && all[|before|].year == year);
    }
  }

  /** The records a fetched page yields: the link parse, or the text scan when that is empty. */
  function PageRecords(page: IndexPage, year: int): (r: seq<WeekRecord>)
    ensures AllOfYear(r, year)
    ensures LinkRecords(DoctrineLinks(page.links, year), year) != [] ==>
      r == LinkRecords(DoctrineLinks(page.links, year), year)
    ensures LinkRecords(DoctrineLinks(page.links, year), year) == [] ==>
      r == ScanRecords(page.text, year, SeptemberLessons)
  {
    var fromLinks := LinkRecords(DoctrineLinks(page.links, year), year);
    if fromLinks != [] then
      LinkRecordsOfYear(DoctrineLinks(page.links, year), year);
      fromLinks
    else
      ScanRecordsOfYear(page.text, year, SeptemberLessons);
      ScanRecords(page.text, year, SeptemberLessons)
  }

  /** The page of the first of the three attempts that gets one. */
  function FirstPage(fetch: nat -> FetchOutcome): (r: Option<IndexPage>)
    ensures r.None? <==> forall a :: 0 <= a < MaxRetries ==> fetch(a).FetchFailed?
    ensures r.Some? ==> exists a :: 0 <= a < MaxRetries && fetch(a) == Fetched(r.value)
  {
    if fetch(0).Fetched? then Some(fetch(0).page)
    else if fetch(1).Fetched? then Some(fetch(1).page)
    else if fetch(2).Fetched? then Some(fetch(2).page)
    else None
  }

  /** What the extraction returns: the records of the first page fetched, else the fallback data. */
  function Extracted(year: int, fetch: nat -> FetchOutcome): (r: seq<WeekRecord>)
    ensures AllOfYear(r, year)
    ensures FirstPage(fetch).None? ==> r == FallbackFor(year)
    ensures FirstPage(fetch).Some? ==> r == PageRecords(FirstPage(fetch).value, year)
  {
    match FirstPage(fetch)
    case Some(page) => PageRecords(page, year)
    case None => FallbackFor(year)
  }

  /**
   * The retry loop of weekly_curriculum_manager.py:50-83: at most three
   * attempts, the first success ends the loop, and a failure before the
   * last one waits 2 and then 4 seconds.
   */
  method FetchIndexPage(fetch: nat -> FetchOutcome) returns (page: Option<IndexPage>, attempts: nat, waits: seq<nat>)
    ensures 1 <= attempts <= MaxRetries
    ensures forall a :: 0 <= a < attempts - 1 ==> fetch(a).FetchFailed?
    ensures page.Some? ==> fetch(attempts - 1) == Fetched(page.value)
    ensures page.None? ==> attempts == MaxRetries && fetch(attempts - 1).FetchFailed?
    ensures waits == [2, 4][..attempts - 1]
    ensures page == FirstPage(fetch)
  {
    var retryDelay := FirstRetryDelay;
    attempts := 0;
    waits := [];
    while true
      invariant 0 <= attempts < MaxRetries
      invariant forall a :: 0 <= a < attempts ==> fetch(a).FetchFailed?
      invariant waits == [2, 4][..attempts]
      invariant retryDelay == if attempts == 0 then 2 else if attempts == 1 then 4 else 8
      decreases MaxRetries - attempts
    {
      var outcome := fetch(attempts);
      attempts := attempts + 1;
      if outcome.Fetched? {
        return Some(outcome.page), attempts, waits;
      }
      if attempts < MaxRetries {
        waits := waits + [retryDelay];
        retryDelay := retryDelay * 2;
      } else {
        return None, attempts, waits;
      }
    }
  }

  /**
   * `extract_weekly_data_from_website`: the records of the page the retry
   * loop got, or the fallback data after three failures.
   */
  method ExtractWeeklyData(year: int, fetch: nat -> FetchOutcome) returns (data: seq<WeekRecord>)
    ensures data == Extracted(year, fetch)
  {
    var page, attempts, waits := FetchIndexPage(fetch);
    if page.None? {
      return FallbackFor(year);
    }
    var kept := FilterDoctrineLinks(page.value.links, year);
    data := ParseLinks(kept, year);
    if data == [] {
      data := ParseFromTextContent(page.value.text, year);
    }
  }
}
