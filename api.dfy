/**
 * The deterministic rules of the two HTTP back ends (backend/main.py over
 * Azure Table Storage, app_azure.py over SQLite): the partition key a
 * (week, audience) pair is stored under, the 600-character cut of a chat
 * answer, the current-week lookup, the storage-configuration check and
 * the latest-first Q&A listing of the Table Storage back end.
 */
module Api {
  import opened Wrappers
  import opened Dates
  import opened Text
  import opened Ordering
  import opened Weeks
  import opened Schedule2025
  import opened ScraperOld

  /** An endpoint's outcome: its value, or the HTTP error it raises. */
  datatype Response<T> = Ok(value: T) | HttpError(status: nat)

  // ---------------------------------------------------------------------
  // get_table_client
  // ---------------------------------------------------------------------

  const TableMaterials: string := "CurriculumMaterials"
  const TableQa: string := "CurriculumQA"

  /** A handle on one table of the storage account named by a connection string. */
  datatype TableClient = TableClient(connection: string, table: string)

  /** Without a (non-empty) connection string every storage access is a 500 error. */
  function GetTableClient(connection: Option<string>, table: string): (r: Response<TableClient>)
    ensures r.HttpError? <==> connection.None? || connection.value == []
    ensures r.HttpError? ==> r.status == 500
    ensures r.Ok? ==> r.value.table == table && r.value.connection == connection.value
  {
    if connection.None? || connection.value == [] then HttpError(500)
    else Ok(TableClient(connection.value, table))
  }

  // ---------------------------------------------------------------------
  // create_partition_key
  // ---------------------------------------------------------------------

  /** What the three replacements make of one character of the week range. */
  function SafeChar(c: char): char {
    if c == ' ' then '_' else if c == '~' || c == '/' then '-' else c
  }

  /** Replacing one character by one character keeps the length and works position by position. */
  lemma {:induction false} ReplaceCharPointwise(s: string, c: char, d: char)
    ensures |Replace(s, c, [d])| == |s|
    ensures forall i :: 0 <= i < |s| ==> Replace(s, c, [d])[i] == (if s[i] == c then d else s[i])
  {
    if s != [] {
      ReplaceCharPointwise(s[1..], c, d);
      var tail := Replace(s[1..], c, [d]);
      assert Replace(s, c, [d]) == [if s[0] == c then d else s[0]] + tail;
    }
  }

  /** `week_range.replace(" ", "_").replace("~", "-").replace("/", "-")`. */
  function SafeWeek(w: string): (r: string)
    ensures |r| == |w|
    ensures forall i :: 0 <= i < |w| ==> r[i] == SafeChar(w[i])
  {
    var a := Replace(w, ' ', "_");
    ReplaceCharPointwise(w, ' ', '_');
    var b := Replace(a, '~', "-");
    ReplaceCharPointwise(a, '~', '-');
    ReplaceCharPointwise(b, '/', '-');
    Replace(b, '/', "-")
  }

  /** `create_partition_key`: the sanitised week range, an underscore, the audience. */
  function CreatePartitionKey(weekRange: string, audience: string): (key: string)
    ensures |key| == |weekRange| + 1 + |audience|
    ensures forall i :: 0 <= i < |weekRange| ==> key[i] == SafeChar(weekRange[i])
    ensures forall i :: 0 <= i < |weekRange| ==> key[i] != ' ' && key[i] != '~' && key[i] != '/'
    ensures key[|weekRange|] == '_' && key[|weekRange| + 1..] == audience
  {
    SafeWeek(weekRange) + "_" + audience
  }

  /**
   * Two pairs with week ranges of one length share a partition exactly when
   * their audiences are equal and their ranges agree up to the replaced
   * characters.
   */
  lemma PartitionKeysCoincide(w1: string, a1: string, w2: string, a2: string)
    requires |w1| == |w2|
    ensures CreatePartitionKey(w1, a1) == CreatePartitionKey(w2, a2) <==>
      (a1 == a2 && forall i :: 0 <= i < |w1| ==> SafeChar(w1[i]) == SafeChar(w2[i]))
  {
    var k1, k2 := CreatePartitionKey(w1, a1), CreatePartitionKey(w2, a2);
    if k1 == k2 {
      assert a1 == k1[|w1| + 1..] == a2;
      forall i | 0 <= i < |w1| ensures SafeChar(w1[i]) == SafeChar(w2[i]) {
        assert k1[i] == k2[i];
      }
    }
    if a1 == a2 && forall i :: 0 <= i < |w1| ==> SafeChar(w1[i]) == SafeChar(w2[i]) {
      assert SafeWeek(w1) == SafeWeek(w2);
    }
  }

  /**
   * A range written with '~' (as the store writes them) and the same range
   * written with '-' (as the 2025 table writes them) share one partition.
   */
  lemma TildeAndHyphenSharePartition(w: string, i: nat, audience: string)
    requires i < |w| && w[i] == '~'
    ensures CreatePartitionKey(w, audience) == CreatePartitionKey(w[i := '-'], audience)
  {
    PartitionKeysCoincide(w, audience, w[i := '-'], audience);
  }

  // ---------------------------------------------------------------------
  // The answer cut of chat_response
  // ---------------------------------------------------------------------

  const MaxAnswerLength: nat := 600
  /** A cut is kept only when the sentence ends beyond this position. */
  const MinCutPoint: int := 500
  const SentenceEndings: seq<char> := ['.', '!', '?', '\U{3002}', '\U{FF01}', '\U{FF1F}']

  /** The largest `t.rfind(e)` over the endings `es`: the last position holding any of them, or -1. */
  function LastEnding(t: string, es: seq<char>): (r: int)
    ensures -1 <= r < |t|
    ensures r >= 0 ==> t[r] in es
    ensures forall k :: r < k < |t| ==> t[k] !in es
  {
    if es == [] then -1
    else
      var before := LastEnding(t, es[..|es| - 1]);
      var pos := RFind(t, es[|es| - 1]);
      assert es == es[..|es| - 1] + [es[|es| - 1]];
      if pos > before then pos else before
  }

  /** The loop over the six endings keeping the largest `rfind`. */
  method CutPoint(truncated: string) returns (cut: int)
    ensures cut == LastEnding(truncated, SentenceEndings)
  {
    cut := -1;
    var i := 0;
    while i < |SentenceEndings|
      invariant 0 <= i <= |SentenceEndings|
      invariant cut == LastEnding(truncated, SentenceEndings[..i])
    {
      assert SentenceEndings[..i + 1][..i] == SentenceEndings[..i];
      var pos := RFind(truncated, SentenceEndings[i]);
      if pos > cut {
        cut := pos;
      }
      i := i + 1;
    }
    assert SentenceEndings[..i] == SentenceEndings;
  }

  /** The answer as returned: unchanged up to 600 characters, else cut at a late sentence end or marked "...". */
  function Truncate(answer: string): (r: string)
    ensures |answer| <= MaxAnswerLength ==> r == answer
    ensures |r| <= MaxAnswerLength + 3
  {
    if |answer| <= MaxAnswerLength then answer
    else
      var t := answer[..MaxAnswerLength];
      var cut := LastEnding(t, SentenceEndings);
      RStripShape(t);
      if cut > MinCutPoint then t[..cut + 1] else RStrip(t) + "..."
  }

  /**
   * A long answer with a sentence end past position 500 is cut right after
   * the last sentence end among its first 600 characters.
   */
  lemma TruncateAtSentenceEnd(answer: string)
    requires |answer| > MaxAnswerLength
    requires exists k :: MinCutPoint < k < MaxAnswerLength && answer[k] in SentenceEndings
    ensures var r := Truncate(answer);
      MinCutPoint + 2 <= |r| <= MaxAnswerLength && r == answer[..|r|] && r[|r| - 1] in SentenceEndings
      && forall k :: |r| <= k < MaxAnswerLength ==> answer[k] !in SentenceEndings
  {
    var t := answer[..MaxAnswerLength];
    var k :| MinCutPoint < k < MaxAnswerLength && answer[k] in SentenceEndings;
    assert t[k] == answer[k];
    var cut := LastEnding(t, SentenceEndings);
    assert cut >= k;
    var r := Truncate(answer);
    assert r == t[..cut + 1];
    forall j | |r| <= j < MaxAnswerLength ensures answer[j] !in SentenceEndings {
      assert t[j] == answer[j];
    }
  }

  /**
   * A long answer with no sentence end after position 500 keeps its first
   * 600 characters, trailing white space dropped, followed by "...".
   */
  lemma TruncateWithEllipsis(answer: string)
    requires |answer| > MaxAnswerLength
    requires forall k :: MinCutPoint < k < MaxAnswerLength ==> answer[k] !in SentenceEndings
    ensures Truncate(answer) == RStrip(answer[..MaxAnswerLength]) + "..."
    ensures StartsWith(answer, RStrip(answer[..MaxAnswerLength]))
  {
    RStripShape(answer[..MaxAnswerLength]);
  }

  /** The cut as the handler performs it. */
  method TruncateAnswer(answer: string) returns (text: string)
    ensures text == Truncate(answer)
  {
    text := answer;
    if |answer| > MaxAnswerLength {
      var truncated := answer[..MaxAnswerLength];
      var cut := CutPoint(truncated);
      if cut > MinCutPoint {
        text := truncated[..cut + 1];
      } else {
        text := RStrip(truncated) + "...";
      }
    }
  }

  // ---------------------------------------------------------------------
  // get_current_week
  // ---------------------------------------------------------------------

  /** The endpoint's answer: an index into the week list and that week, if any. */
  datatype CurrentWeek = CurrentWeek(index: nat, week: Option<OldChoice>)

  predicate ChoiceCovers(c: OldChoice, d: Date) {
    InRange(d, c.start, c.end)
  }

  /** The first week holding `today`; failing that index 0 with the first week, or no week for an empty list. */
  predicate IsCurrentWeek(weeks: seq<OldChoice>, today: Date, answer: CurrentWeek) {
    ((exists k :: 0 <= k < |weeks| && ChoiceCovers(weeks[k], today)) ==>
      answer.index < |weeks| && answer.week == Some(weeks[answer.index])
      && ChoiceCovers(weeks[answer.index], today)
      && forall k :: 0 <= k < answer.index ==> !ChoiceCovers(weeks[k], today))
    && ((forall k :: 0 <= k < |weeks| ==> !ChoiceCovers(weeks[k], today)) ==>
      answer == CurrentWeek(0, if weeks == [] then None else Some(weeks[0])))
  }

  /** The scan of `get_current_week` over the week list. */
  method GetCurrentWeek(weeks: seq<OldChoice>, today: Date) returns (answer: CurrentWeek)
    ensures IsCurrentWeek(weeks, today, answer)
  {
    var i := 0;
    while i < |weeks|
      invariant 0 <= i <= |weeks|
      invariant forall k :: 0 <= k < i ==> !ChoiceCovers(weeks[k], today)
    {
      if ChoiceCovers(weeks[i], today) {
        return CurrentWeek(i, Some(weeks[i]));
      }
      i := i + 1;
    }
    return CurrentWeek(0, if weeks == [] then None else Some(weeks[0]));
  }

  /** Over choices holding the same days as a week list, the current week is that list's first covering week. */
  lemma CurrentWeekIsFirstCovering(choices: seq<OldChoice>, weeks: seq<Week>, d: Date, answer: CurrentWeek)
    requires |choices| == |weeks|
    requires forall k :: 0 <= k < |choices| ==> (ChoiceCovers(choices[k], d) <==> Covers(weeks[k], d))
    requires IsCurrentWeek(choices, d, answer)
    requires exists k :: 0 <= k < |weeks| && Covers(weeks[k], d)
    ensures answer.week.Some? && FirstCovering(weeks, d) == Some(answer.index)
  {
    var k :| 0 <= k < |weeks| && Covers(weeks[k], d);
    assert ChoiceCovers(choices[k], d);
  }

  /** The choices of the old table hold a day exactly where the 2025 table's weeks do. */
  lemma ChoicesCoverLikeTable(choices: seq<OldChoice>, d: Date)
    requires |choices| == |OldTable|
    requires forall k :: 0 <= k < |OldTable| ==> choices[k] == OldChoice(k, OldTable[k].start, OldTable[k].end)
    ensures |choices| == |Table2025|
    ensures forall k :: 0 <= k < |choices| ==> (ChoiceCovers(choices[k], d) <==> Covers(Table2025[k], d))
  {
  }

  /**
   * The endpoint over the old scraper's week list: on any day of 2025 it
   * answers the week of the 2025 table holding that day.
   */
  method CurrentWeekEndpoint(today: Date) returns (answer: CurrentWeek)
    ensures IsValid(today) && today.year == 2025 ==>
      answer.week.Some? && FirstCovering(Table2025, today) == Some(answer.index)
  {
    var weeks := AvailableWeeksOld();
    answer := GetCurrentWeek(weeks, today);
    if IsValid(today) && today.year == 2025 {
      ChoicesCoverLikeTable(weeks, today);
      EveryDayOf2025Covered(today);
      CurrentWeekIsFirstCovering(weeks, Table2025, today, answer);
    }
  }

  // ---------------------------------------------------------------------
  // get_qa_list of the Table Storage back end
  // ---------------------------------------------------------------------

  /** A stored Q&A entity; any property may be missing. */
  datatype QaEntity = QaEntity(
    partitionKey: string, question: Option<string>, answer: Option<string>, createdAt: Option<string>)

  /** A listed Q&A item, a missing property read as "". */
  datatype QaItem = QaItem(question: string, answer: string, createdAt: string)

  /** The sort key `x.get('CreatedAt', '')`. */
  function CreatedAtOf(e: QaEntity): string {
    e.createdAt.GetOr("")
  }

  function ToItem(e: QaEntity): QaItem {
    QaItem(e.question.GetOr(""), e.answer.GetOr(""), e.createdAt.GetOr(""))
  }

  /** The entities of one partition, in storage order (the `PartitionKey eq` filter). */
  function InPartition(es: seq<QaEntity>, key: string): (r: seq<QaEntity>)
    ensures |r| <= |es|
    ensures forall k :: 0 <= k < |r| ==> r[k].partitionKey == key
  {
    if es == [] then []
    else
      var last := es[|es| - 1];
      InPartition(es[..|es| - 1], key) + (if last.partitionKey == key then [last] else [])
  }

  lemma {:induction false} InPartitionMembers(es: seq<QaEntity>, key: string)
    ensures forall e :: e in InPartition(es, key) <==> e in es && e.partitionKey == key
  {
    if es != [] {
      var init := es[..|es| - 1];
      InPartitionMembers(init, key);
      assert es == init + [es[|es| - 1]];
    }
  }

  function Items(es: seq<QaEntity>): (r: seq<QaItem>)
    ensures |r| == |es|
  {
    seq(|es|, k requires 0 <= k < |es| => ToItem(es[k]))
  }

  /**
   * `get_qa_list`: the pair's partition, latest `CreatedAt` first; a 500
   * error without storage configuration, and nothing when the query fails.
   */
  function QaListMain(connection: Option<string>, stored: Option<seq<QaEntity>>, weekRange: string, audience: string)
    : (r: Response<seq<QaItem>>)
    ensures r.HttpError? <==> GetTableClient(connection, TableQa).HttpError?
    ensures r.HttpError? ==> r.status == 500
    ensures r.Ok? && stored.None? ==> r.value == []
    ensures r.Ok? ==> forall i, j :: 0 <= i < j < |r.value| ==> StrLe(r.value[j].createdAt, r.value[i].createdAt)
  {
    match GetTableClient(connection, TableQa)
    case HttpError(status) => HttpError(status)
    case Ok(_) =>
      if stored.None? then Ok([])
      else
        var sorted := SortDesc(InPartition(stored.value, CreatePartitionKey(weekRange, audience)), CreatedAtOf);
        Ok(Items(sorted))
  }

  /** The listing holds one item per entity of the pair's partition and nothing else. */
  lemma QaListMainContents(connection: Option<string>, stored: seq<QaEntity>, weekRange: string, audience: string)
    requires GetTableClient(connection, TableQa).Ok?
    ensures var items := QaListMain(connection, Some(stored), weekRange, audience).value;
      var key := CreatePartitionKey(weekRange, audience);
      |items| == |InPartition(stored, key)|
      && (forall e :: e in stored && e.partitionKey == key ==> ToItem(e) in items)
      && (forall it :: it in items ==> exists e :: e in stored && e.partitionKey == key && it == ToItem(e))
  {
    var key := CreatePartitionKey(weekRange, audience);
    var part := InPartition(stored, key);
    var sorted := SortDesc(part, CreatedAtOf);
    var items := Items(sorted);
    InPartitionMembers(stored, key);
    assert |sorted| == |multiset(sorted)| == |multiset(part)| == |part|;
    forall e | e in stored && e.partitionKey == key ensures ToItem(e) in items {
      assert e in multiset(sorted);
      var k :| 0 <= k < |sorted| && sorted[k] == e;
      assert items[k] == ToItem(e);
    }
    forall it | it in items ensures exists e :: e in stored && e.partitionKey == key && it == ToItem(e) {
      var k :| 0 <= k < |items| && items[k] == it;
      assert sorted[k] in multiset(part);
    }
  }
}
