/**
 * The per-year week store of weekly_curriculum_manager.py:24-40 and
 * 381-472 over the two tables app_azure.py:130-153 creates:
 * `weekly_curriculum`, unique on (year, start_date, end_date), and
 * `curriculum_status`, keyed by year.  Saving a year replaces all of its
 * rows in one transaction; a clash on the unique key rolls the whole
 * transaction back.
 */
module WeekStore {
  import opened Wrappers
  import opened Dates
  import opened LinkParsing
  import opened Weeks
  import opened FallbackData
  import opened Extraction

  /** A `curriculum_status` row. */
  datatype YearStatus = YearStatus(lastUpdated: int, totalWeeks: int, status: string)

  const Completed: string := "completed"

  /** The unique key of `weekly_curriculum`. */
  function Key(r: WeekRecord): (int, Date, Date) {
    (r.year, r.start, r.end)
  }

  predicate DistinctKeys(rs: seq<WeekRecord>) {
    forall i, j :: 0 <= i < j < |rs| ==> Key(rs[i]) != Key(rs[j])
  }

  predicate HasKey(rs: seq<WeekRecord>, k: (int, Date, Date)) {
    exists j :: 0 <= j < |rs| && Key(rs[j]) == k
  }

  /** The rows `DELETE FROM weekly_curriculum WHERE year = ?` leaves. */
  function Without(rs: seq<WeekRecord>, year: int): (r: seq<WeekRecord>)
    ensures forall x :: x in r <==> x in rs && x.year != year
    ensures |r| <= |rs|
  {
    if rs == [] then []
    else
      var last := rs[|rs| - 1];
      var init := rs[..|rs| - 1];
      assert rs == init + [last];
      Without(init, year) + (if last.year != year then [last] else [])
  }

  /** The rows `WHERE year = ?` selects. */
  function RowsOf(rs: seq<WeekRecord>, year: int): (r: seq<WeekRecord>)
    ensures forall x :: x in r <==> x in rs && x.year == year
    ensures AllOfYear(r, year)
  {
    if rs == [] then []
    else
      var last := rs[|rs| - 1];
      var init := rs[..|rs| - 1];
      assert rs == init + [last];
      RowsOf(init, year) + (if last.year == year then [last] else [])
  }

  predicate StartsDescending(rs: seq<WeekRecord>) {
    forall i, j :: 0 <= i < j < |rs| ==> AtOrBefore(rs[j].start, rs[i].start)
  }

  function InsertByStart(x: WeekRecord, rs: seq<WeekRecord>): (r: seq<WeekRecord>)
    requires StartsDescending(rs)
    ensures StartsDescending(r)
    ensures multiset(r) == multiset(rs) + multiset{x}
  {
    if rs == [] || AtOrBefore(rs[0].start, x.start) then
      HeadAboveAll(x, rs);
      [x] + rs
    else
      var rest := InsertByStart(x, rs[1..]);
      assert rs == [rs[0]] + rs[1..];
      RestBelowHead(x, rs, rest);
      assert multiset([rs[0]] + rest) == multiset{rs[0]} + multiset(rest);
      [rs[0]] + rest
  }

  /** A row starting no earlier than the head of a descending list can go in front. */
  lemma HeadAboveAll(x: WeekRecord, rs: seq<WeekRecord>)
    requires StartsDescending(rs) && (rs == [] || AtOrBefore(rs[0].start, x.start))
    ensures StartsDescending([x] + rs)
  {
    var all := [x] + rs;
    forall i, j | 0 <= i < j < |all| ensures AtOrBefore(all[j].start, all[i].start) {
      if i == 0 {
        AtOrBeforeTransitive(rs[j - 1].start, rs[0].start, x.start);
      } else {
        assert all[i] == rs[i - 1] && all[j] == rs[j - 1];
      }
    }
  }

  /** What is inserted behind the head of a descending list starts no later than the head. */
  lemma RestBelowHead(x: WeekRecord, rs: seq<WeekRecord>, rest: seq<WeekRecord>)
    requires StartsDescending(rs) && rs != [] && !AtOrBefore(rs[0].start, x.start)
    requires StartsDescending(rest) && multiset(rest) == multiset(rs[1..]) + multiset{x}
    ensures StartsDescending([rs[0]] + rest)
  {
    BeforeIsStrictTotal(x.start, rs[0].start);
    var all := [rs[0]] + rest;
    forall i, j | 0 <= i < j < |all| ensures AtOrBefore(all[j].start, all[i].start) {
      if i == 0 {
        var y := rest[j - 1];
        assert y in multiset(rest);
        if y != x {
          assert y in multiset(rs[1..]);
          var k :| 0 <= k < |rs[1..]| && rs[1..][k] == y;
          assert rs[k + 1] == y;
        }
      } else {
        assert all[i] == rest[i - 1] && all[j] == rest[j - 1];
      }
    }
  }

  /** `ORDER BY start_date DESC`: the same rows, latest start first. */
  function SortByStartDesc(rs: seq<WeekRecord>): (r: seq<WeekRecord>)
    ensures StartsDescending(r)
    ensures multiset(r) == multiset(rs)
  {
    if rs == [] then []
    else
      assert rs == [rs[0]] + rs[1..];
      InsertByStart(rs[0], SortByStartDesc(rs[1..]))
  }

  /** A stored row as `get_weekly_data_from_db` hands it out: scripture range as title keywords. */
  function ToWeek(r: WeekRecord): Week {
    Week(r.start, r.end, r.weekRange, r.scriptureRange, r.section, Some(r.lessonTitle), Some(r.lessonUrl))
  }

  function ProjectWeeks(rs: seq<WeekRecord>): seq<Week> {
    seq(|rs|, k requires 0 <= k < |rs| => ToWeek(rs[k]))
  }

  /**
   * `weeks` is what the query returns for `year` over `rows`: one week per
   * row of the year and no other, latest start first.
   */
  predicate IsWeeksOf(weeks: seq<Week>, rows: seq<WeekRecord>, year: int) {
    |weeks| == |RowsOf(rows, year)|
    && (forall i, j :: 0 <= i < j < |weeks| ==> AtOrBefore(weeks[j].start, weeks[i].start))
    && (forall r :: r in rows && r.year == year ==> ToWeek(r) in weeks)
    && (forall k :: 0 <= k < |weeks| ==> exists r :: r in rows && r.year == year && weeks[k] == ToWeek(r))
  }

  /** The projected query result has one week per row of the year, latest start first. */
  lemma QueryOrder(rows: seq<WeekRecord>, year: int)
    ensures var weeks := ProjectWeeks(SortByStartDesc(RowsOf(rows, year)));
      |weeks| == |RowsOf(rows, year)|
      && forall i, j :: 0 <= i < j < |weeks| ==> AtOrBefore(weeks[j].start, weeks[i].start)
  {
    var sorted := SortByStartDesc(RowsOf(rows, year));
    assert |sorted| == |multiset(sorted)|;
  }

  /** The projected query result holds the week of every row of the year and nothing else. */
  lemma QueryContents(rows: seq<WeekRecord>, year: int)
    ensures var weeks := ProjectWeeks(SortByStartDesc(RowsOf(rows, year)));
      (forall r :: r in rows && r.year == year ==> ToWeek(r) in weeks)
      && forall k :: 0 <= k < |weeks| ==> exists r :: r in rows && r.year == year && weeks[k] == ToWeek(r)
  {
    QueryHasEveryRow(rows, year);
    QueryHasOnlyRows(rows, year);
  }

  lemma QueryHasEveryRow(rows: seq<WeekRecord>, year: int)
    ensures forall r :: r in rows && r.year == year ==>
      ToWeek(r) in ProjectWeeks(SortByStartDesc(RowsOf(rows, year)))
  {
    var sorted := SortByStartDesc(RowsOf(rows, year));
    var weeks := ProjectWeeks(sorted);
    forall r | r in rows && r.year == year
      ensures ToWeek(r) in weeks
    {
      assert r in multiset(sorted);
      var k :| 0 <= k < |sorted| && sorted[k] == r;
      assert weeks[k] == ToWeek(r);
    }
  }

  lemma QueryHasOnlyRows(rows: seq<WeekRecord>, year: int)
    ensures var weeks := ProjectWeeks(SortByStartDesc(RowsOf(rows, year)));
      forall k :: 0 <= k < |weeks| ==> exists r :: r in rows && r.year == year && weeks[k] == ToWeek(r)
  {
    var sorted := SortByStartDesc(RowsOf(rows, year));
    var weeks := ProjectWeeks(sorted);
    forall k | 0 <= k < |weeks|
      ensures exists r :: r in rows && r.year == year && weeks[k] == ToWeek(r)
    {
      assert sorted[k] in multiset(RowsOf(rows, year));
    }
  }

  class CurriculumDb {
    /** `weekly_curriculum`, in insertion order. */
    var rows: seq<WeekRecord>
    /** `curriculum_status`, keyed by year. */
    var status: map<int, YearStatus>

    /** The unique constraint on (year, start_date, end_date) holds. */
    ghost predicate Valid()
      reads this
    {
      DistinctKeys(rows)
    }

    constructor ()
      ensures Valid() && rows == [] && status == map[]
    {
      rows := [];
      status := map[];
    }

    /** `check_year_data_exists`: a completed status row with at least one week. */
    predicate YearReady(year: int)
      reads this
    {
      year in status && status[year].status == Completed && status[year].totalWeeks > 0
    }

    /**
     * `save_weekly_data_to_db`: nothing to save is a refusal; otherwise the
     * year's rows are replaced by `data` and the status row records the
     * count, unless an insert clashes on the unique key, in which case
     * nothing changes.
     */
    method SaveWeeklyData(data: seq<WeekRecord>, year: int, now: int) returns (ok: bool)
      requires Valid()
      modifies this
      ensures Valid()
      ensures ok <==> data != [] && DistinctKeys(Without(old(rows), year) + data)
      ensures ok ==> (rows == Without(old(rows), year) + data
        && status == old(status)[year := YearStatus(now, |data|, Completed)])
      ensures !ok ==> rows == old(rows) && status == old(status)
    {
      if data == [] {
        return false;
      }
      var base := Without(rows, year);
      assert DistinctKeys(base) by { SubsequenceKeepsDistinct(rows, year); }
      var table := base;
      var i := 0;
      while i < |data|
        invariant 0 <= i <= |data|
        invariant table == base + data[..i]
        invariant DistinctKeys(table)
      {
        if HasKey(table, Key(data[i])) {
          var j :| 0 <= j < |table| && Key(table[j]) == Key(data[i]);
          assert (base + data)[j] == table[j];
          assert (base + data)[|base| + i] == data[i];
          return false;
        }
        assert data[..i + 1] == data[..i] + [data[i]];
        table := table + [data[i]];
        i := i + 1;
      }
      assert data[..|data|] == data;
      rows := table;
      status := status[year := YearStatus(now, |data|, Completed)];
      return true;
    }

    /**
     * `get_weekly_data_from_db`: the year's rows, latest start first, each
     * projected to a week.
     */
    method GetWeeklyData(year: int) returns (weeks: seq<Week>)
      ensures IsWeeksOf(weeks, rows, year)
    {
      var sorted := SortByStartDesc(RowsOf(rows, year));
      weeks := [];
      var i := 0;
      while i < |sorted|
        invariant 0 <= i <= |sorted| && weeks == ProjectWeeks(sorted[..i])
      {
        assert sorted[..i + 1] == sorted[..i] + [sorted[i]];
        weeks := weeks + [ToWeek(sorted[i])];
        i := i + 1;
      }
      assert sorted[..|sorted|] == sorted;
      QueryOrder(rows, year);
      QueryContents(rows, year);
    }

    /**
     * `ensure_year_data`: a ready year is left alone; otherwise the
     * extracted records, or the fallback data when there are none, are
     * saved, and with nothing at all to save the answer is no.
     */
    method EnsureYearData(year: int, fetch: nat -> FetchOutcome, now: int) returns (ok: bool)
      requires Valid()
      modifies this
      ensures Valid()
      ensures old(YearReady(year)) ==> ok && rows == old(rows) && status == old(status)
      ensures !old(YearReady(year)) ==> (
        var data := ToSave(year, fetch);
        (ok <==> data != [] && DistinctKeys(Without(old(rows), year) + data))
        && (ok ==> rows == Without(old(rows), year) + data
                   && status == old(status)[year := YearStatus(now, |data|, Completed)])
        && (!ok ==> rows == old(rows) && status == old(status)))
      ensures ok ==> YearReady(year)
    {
      if YearReady(year) {
        return true;
      }
      var data := ExtractWeeklyData(year, fetch);
      if data == [] {
        data := FallbackFor(year);
      }
      if data != [] {
        ok := SaveWeeklyData(data, year, now);
      } else {
        ok := false;
      }
    }
  }

  /** What `ensure_year_data` saves for a year that is not ready. */
  function ToSave(year: int, fetch: nat -> FetchOutcome): (r: seq<WeekRecord>)
    ensures AllOfYear(r, year)
    ensures r == [] <==> Extracted(year, fetch) == [] && year != 2025
  {
    var data := Extracted(year, fetch);
    if data == [] then FallbackFor(year) else data
  }

  /** Dropping rows keeps the remaining keys distinct. */
  lemma {:induction false} SubsequenceKeepsDistinct(rs: seq<WeekRecord>, year: int)
    requires DistinctKeys(rs)
    ensures DistinctKeys(Without(rs, year))
  {
    if rs != [] {
      var init := rs[..|rs| - 1];
      assert DistinctKeys(init);
      SubsequenceKeepsDistinct(init, year);
      var last := rs[|rs| - 1];
      if last.year != year {
        forall x | x in Without(init, year) ensures Key(x) != Key(last) {
          var i :| 0 <= i < |init| && init[i] == x;
        }
      }
    }
  }

  lemma {:induction false} WithoutAppend(a: seq<WeekRecord>, b: seq<WeekRecord>, year: int)
    ensures Without(a + b, year) == Without(a, year) + Without(b, year)
    decreases |b|
  {
    if b != [] {
      var init := b[..|b| - 1];
      assert (a + b)[..|a + b| - 1] == a + init;
      WithoutAppend(a, init, year);
    } else {
      assert a + b == a;
    }
  }

  lemma {:induction false} RowsOfAppend(a: seq<WeekRecord>, b: seq<WeekRecord>, year: int)
    ensures RowsOf(a + b, year) == RowsOf(a, year) + RowsOf(b, year)
    decreases |b|
  {
    if b != [] {
      var init := b[..|b| - 1];
      assert (a + b)[..|a + b| - 1] == a + init;
      RowsOfAppend(a, init, year);
    } else {
      assert a + b == a;
    }
  }

  lemma {:induction false} WithoutOwnYear(d: seq<WeekRecord>, year: int)
    requires AllOfYear(d, year)
    ensures Without(d, year) == [] && RowsOf(d, year) == d
  {
    if d != [] {
      WithoutOwnYear(d[..|d| - 1], year);
    }
  }

  lemma {:induction false} WithoutIsIdempotent(rs: seq<WeekRecord>, year: int)
    ensures Without(Without(rs, year), year) == Without(rs, year)
    ensures RowsOf(Without(rs, year), year) == []
  {
    if rs != [] {
      var init := rs[..|rs| - 1];
      var last := rs[|rs| - 1];
      WithoutIsIdempotent(init, year);
      WithoutAppend(Without(init, year), if last.year != year then [last] else [], year);
      RowsOfAppend(Without(init, year), if last.year != year then [last] else [], year);
    }
  }

  /**
   * After a save of records of the year, the year's rows are exactly the
   * records saved, and the other years' rows are untouched.
   */
  lemma SavedYearReadsBack(rows: seq<WeekRecord>, data: seq<WeekRecord>, year: int)
    requires AllOfYear(data, year)
    ensures RowsOf(Without(rows, year) + data, year) == data
    ensures Without(Without(rows, year) + data, year) == Without(rows, year)
  {
    RowsOfAppend(Without(rows, year), data, year);
    WithoutAppend(Without(rows, year), data, year);
    WithoutIsIdempotent(rows, year);
    WithoutOwnYear(data, year);
  }

  /** Two saves of the same year leave exactly the second set of records. */
  lemma SaveTwiceKeepsSecond(rows: seq<WeekRecord>, first: seq<WeekRecord>, second: seq<WeekRecord>, year: int)
    requires AllOfYear(first, year)
    ensures Without(Without(rows, year) + first, year) + second == Without(rows, year) + second
  {
    SavedYearReadsBack(rows, first, year);
  }

  /** Records of one year with distinct keys can always replace that year's rows. */
  lemma {:induction false} ReplaceYearKeepsDistinct(rows: seq<WeekRecord>, data: seq<WeekRecord>, year: int)
    requires DistinctKeys(rows) && DistinctKeys(data) && AllOfYear(data, year)
    ensures DistinctKeys(Without(rows, year) + data)
  {
    SubsequenceKeepsDistinct(rows, year);
    var base := Without(rows, year);
    var all := base + data;
    forall i, j | 0 <= i < j < |all| ensures Key(all[i]) != Key(all[j]) {
      if j >= |base| && i < |base| {
        assert all[i] in base;
        assert all[j] == data[j - |base|];
      } else if i >= |base| {
        assert all[i] == data[i - |base|] && all[j] == data[j - |base|];
      }
    }
  }

  lemma FallbackKeysDistinct()
    ensures DistinctKeys(Fallback2025)
  {
  }

  /**
   * For 2025 a store that is not ready always ends up ready: if the site
   * yields nothing the fallback records are saved, and they clash with
   * nothing.
   */
  lemma EnsureSucceedsWithFallback(rows: seq<WeekRecord>, fetch: nat -> FetchOutcome)
    requires DistinctKeys(rows) && Extracted(2025, fetch) == []
    ensures ToSave(2025, fetch) == Fallback2025
    ensures DistinctKeys(Without(rows, 2025) + ToSave(2025, fetch))
  {
    assert ToSave(2025, fetch) == FallbackFor(2025) == Fallback2025;
    assert AllOfYear(FallbackFor(2025), 2025);
    FallbackKeysDistinct();
    ReplaceYearKeepsDistinct(rows, Fallback2025, 2025);
  }
}
