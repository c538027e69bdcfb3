/**
 * The week list every layer passes around: a week's dates, its range
 * text, its title keywords (the scripture range), its section, and, for
 * weeks read from the store, the lesson title and URL.  The lookups of
 * the scrapers, the API and the app all pick the first week in list order
 * whose span holds a date; over a list that partitions a span of days that
 * week is the only one.
 */
module Weeks {
  import opened Wrappers
  import opened Dates

  datatype Week = Week(
    start: Date, end: Date, weekRange: string, titleKeywords: string, section: string,
    lessonTitle: Option<string>, lessonUrl: Option<string>)

  predicate Covers(w: Week, d: Date) {
    InRange(d, w.start, w.end)
  }

  /** The index of the first week in list order whose span holds `d`. */
  function FirstCovering(weeks: seq<Week>, d: Date): (r: Option<nat>)
    ensures r.Some? ==> (r.value < |weeks| && Covers(weeks[r.value], d)
      && forall k :: 0 <= k < r.value ==> !Covers(weeks[k], d))
    ensures r.None? <==> forall k :: 0 <= k < |weeks| ==> !Covers(weeks[k], d)
  {
    if weeks == [] then None
    else if Covers(weeks[0], d) then Some(0)
    else
      match FirstCovering(weeks[1..], d)
      case Some(i) => Some(i + 1)
      case None => None
  }

  /** The search loop: scan in order, stop at the first week holding `d`. */
  method FindWeek(weeks: seq<Week>, d: Date) returns (index: Option<nat>)
    ensures index == FirstCovering(weeks, d)
  {
    var i := 0;
    while i < |weeks|
      invariant 0 <= i <= |weeks|
      invariant forall k :: 0 <= k < i ==> !Covers(weeks[k], d)
    {
      if Covers(weeks[i], d) {
        return Some(i);
      }
      i := i + 1;
    }
    return None;
  }

  /**
   * Weeks listed latest first: each one a span of real days, starting on
   * the day after the next week in the list ends.
   */
  predicate IsDescendingChain(weeks: seq<Week>) {
    (forall k :: 0 <= k < |weeks| ==>
      IsValid(weeks[k].start) && IsValid(weeks[k].end) && AtOrBefore(weeks[k].start, weeks[k].end))
    && (forall k :: 0 <= k < |weeks| - 1 ==> NextDay(weeks[k + 1].end) == weeks[k].start)
  }

  /** A chain running from the week starting on `first` to the week ending on `last`. */
  predicate PartitionsSpan(weeks: seq<Week>, first: Date, last: Date) {
    IsDescendingChain(weeks) && weeks != [] && weeks[|weeks| - 1].start == first && weeks[0].end == last
  }

  /** Two chains joined where the second's first week ends the day before the first's last week starts. */
  lemma ChainAppend(a: seq<Week>, b: seq<Week>)
    requires IsDescendingChain(a) && IsDescendingChain(b) && a != [] && b != []
    requires NextDay(b[0].end) == a[|a| - 1].start
    ensures IsDescendingChain(a + b)
  {
    var ab := a + b;
    forall k | 0 <= k < |ab| - 1
      ensures NextDay(ab[k + 1].end) == ab[k].start
    {
      if k + 1 < |a| {
      } else if k + 1 == |a| {
      } else {
        assert ab[k] == b[k - |a|] && ab[k + 1] == b[k - |a| + 1];
      }
    }
  }

  /** In a chain a later-listed week ends before an earlier-listed one starts. */
  lemma {:induction false} ChainDisjoint(weeks: seq<Week>, i: nat, j: nat)
    requires IsDescendingChain(weeks) && i < j < |weeks|
    ensures Before(weeks[j].end, weeks[i].start)
    decreases j - i
  {
    assert NextDay(weeks[i + 1].end) == weeks[i].start;
    if j > i + 1 {
      ChainDisjoint(weeks, i + 1, j);
      AtOrBeforeTransitive(weeks[j].end, weeks[i + 1].start, weeks[i + 1].end);
    }
  }

  /** Every real day of the span a chain covers lies in some week of it. */
  lemma {:induction false} ChainCovers(weeks: seq<Week>, d: Date)
    requires IsDescendingChain(weeks) && weeks != [] && IsValid(d)
    requires InRange(d, weeks[|weeks| - 1].start, weeks[0].end)
    ensures exists k :: 0 <= k < |weeks| && Covers(weeks[k], d)
  {
    if AtOrBefore(weeks[0].start, d) {
      assert Covers(weeks[0], d);
    } else {
      var rest := weeks[1..];
      assert |weeks| > 1;
      NothingBetweenDays(weeks[1].end, d);
      assert forall k :: 0 <= k < |rest| - 1 ==> NextDay(rest[k + 1].end) == rest[k].start;
      ChainCovers(rest, d);
      var k :| 0 <= k < |rest| && Covers(rest[k], d);
      assert weeks[k + 1] == rest[k];
    }
  }

  /** Every week of a chain lies inside the span the chain covers. */
  lemma ChainWithinSpan(weeks: seq<Week>, first: Date, last: Date, k: nat)
    requires PartitionsSpan(weeks, first, last) && k < |weeks|
    ensures AtOrBefore(first, weeks[k].start) && AtOrBefore(weeks[k].end, last)
  {
    var n := |weeks|;
    if k < n - 1 {
      ChainDisjoint(weeks, k, n - 1);
      AtOrBeforeTransitive(first, weeks[n - 1].end, weeks[k].start);
    }
    if k > 0 {
      ChainDisjoint(weeks, 0, k);
      AtOrBeforeTransitive(weeks[k].end, weeks[0].start, last);
    }
  }

  /**
   * Over a chain every real day between the first start and the last end
   * lies in exactly one week, and the first-match search finds that week.
   */
  lemma ChainIsPartition(weeks: seq<Week>, first: Date, last: Date, d: Date)
    requires PartitionsSpan(weeks, first, last) && IsValid(d) && InRange(d, first, last)
    ensures exists k :: 0 <= k < |weeks| && Covers(weeks[k], d)
    ensures forall i, j :: (0 <= i < |weeks| && 0 <= j < |weeks| && Covers(weeks[i], d) && Covers(weeks[j], d)) ==> i == j
    ensures FirstCovering(weeks, d).Some?
  {
    ChainCovers(weeks, d);
    forall i, j | 0 <= i < |weeks| && 0 <= j < |weeks| && Covers(weeks[i], d) && Covers(weeks[j], d)
      ensures i == j
    {
      if i < j {
        ChainDisjoint(weeks, i, j);
      } else if j < i {
        ChainDisjoint(weeks, j, i);
      }
    }
  }
}
