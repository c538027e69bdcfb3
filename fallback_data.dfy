/**
 * `get_fallback_data` (weekly_curriculum_manager.py:474-543): the six
 * records written into the code for 2025, used when the index page cannot
 * be fetched or yields nothing.
 */
module FallbackData {
  import opened Wrappers
  import opened Dates
  import opened Text
  import opened LinkParsing
  import opened DateRangeProofs

  const LessonBase: string := BaseUrl + ManualPath + "2025/"

  const Fallback2025: seq<WeekRecord> := [
    WeekRecord(2025, Date(2025, 9, 22), Date(2025, 9, 28), "9월22일~28일", "교리와 성약 106~108편",
      "9월 22일~28일교리와 성약 106~108편\"하나님의 아들의 반차\"",
      LessonBase + "38-doctrine-and-covenants-106-108?lang=kor", "9월"),
    WeekRecord(2025, Date(2025, 9, 15), Date(2025, 9, 21), "9월15일~21일", "교리와 성약 102~105편",
      "9월 15일~21일교리와 성약 102~105편\"많은 환난 후에 축복이 옴이니라\"",
      LessonBase + "37-doctrine-and-covenants-102-105?lang=kor", "9월"),
    WeekRecord(2025, Date(2025, 9, 8), Date(2025, 9, 14), "9월8일~14일", "교리와 성약 98~101편",
      "9월 8일~14일교리와 성약 98~101편\"가만히 있어 내가 하나님인 줄 알라\"",
      LessonBase + "36-doctrine-and-covenants-98-101?lang=kor", "9월"),
    WeekRecord(2025, Date(2025, 9, 1), Date(2025, 9, 7), "9월1일~7일", "교리와 성약 94~97편",
      "9월 1일~7일교리와 성약 94~97편\"시온의 구원을 위하여\"",
      LessonBase + "35-doctrine-and-covenants-94-97?lang=kor", "9월"),
    WeekRecord(2025, Date(2025, 8, 25), Date(2025, 8, 31), "8월25일~31일", "교리와 성약 94~97편",
      "8월 25일~31일교리와 성약 94~97편",
      LessonBase + "34-doctrine-and-covenants-94-97?lang=kor", "8월"),
    WeekRecord(2025, Date(2025, 10, 1), Date(2025, 10, 7), "10월1일~7일", "교리와 성약 109~110편",
      "10월 1일~7일교리와 성약 109~110편",
      LessonBase + "39-doctrine-and-covenants-109-110?lang=kor", "10월")
  ]

  /** `get_fallback_data`: six records for 2025, nothing for any other year. */
  function FallbackFor(year: int): (r: seq<WeekRecord>)
    ensures r != [] <==> year == 2025
    ensures forall k :: 0 <= k < |r| ==> r[k].year == year
  {
    if year == 2025 then Fallback2025 else []
  }

  /** The normalised range of a same-month record names its month as the section. */
  lemma SectionOfSameMonthText(m: nat, d1: nat, d2: nat)
    requires 1 <= m < 100 && d1 < 100 && d2 < 100
    ensures SectionLabel(SameMonthText(m, d1, d2)) == NatStr(m) + "월"
  {
    var s := SameMonthText(m, d1, d2);
    var A := NatStr(m);
    ShortNumber(m);
    SameMonthLayout(s, A, NatStr(d1), NatStr(d2));
    assert s[0 + 0] == A[0];
    if |A| == 2 { assert s[0 + 1] == A[1]; }
    assert LeadingMonth(s);
    assert s[..|A|] == A;
    LeadingMonthFound(s);
  }

  /** One fallback record agrees with what the parser makes of its own range. */
  lemma RecordAgrees(r: WeekRecord, m: nat, d1: nat, d2: nat)
    requires 1 <= m <= 12 && 1 <= d1 <= d2 <= DaysInMonth(2025, m)
    requires r.weekRange == SameMonthText(m, d1, d2) && r.section == NatStr(m) + "월"
    requires r.start == Date(2025, m, d1) && r.end == Date(2025, m, d2)
    ensures ParseDateRange(r.weekRange, 2025) == Some((r.start, r.end))
    ensures SectionLabel(r.weekRange) == r.section
  {
    ParseSameMonthForm(2025, m, d1, d2);
    SectionOfSameMonthText(m, d1, d2);
  }

  /** A record that the link parser would have produced from its own week range. */
  predicate AgreesWithParser(r: WeekRecord)
  {
    ParseDateRange(r.weekRange, 2025) == Some((r.start, r.end)) && SectionLabel(r.weekRange) == r.section
  }

  lemma Record0Agrees()
    ensures AgreesWithParser(Fallback2025[0])
  {
    assert Fallback2025[0].weekRange == SameMonthText(9, 22, 28) by { assert NatStr(22) == "22"; assert NatStr(28) == "28"; }
    RecordAgrees(Fallback2025[0], 9, 22, 28);
  }

  lemma Record1Agrees()
    ensures AgreesWithParser(Fallback2025[1])
  {
    assert Fallback2025[1].weekRange == SameMonthText(9, 15, 21) by { assert NatStr(15) == "15"; assert NatStr(21) == "21"; }
    RecordAgrees(Fallback2025[1], 9, 15, 21);
  }

  lemma Record2Agrees()
    ensures AgreesWithParser(Fallback2025[2])
  {
    assert Fallback2025[2].weekRange == SameMonthText(9, 8, 14) by { assert NatStr(14) == "14"; }
    RecordAgrees(Fallback2025[2], 9, 8, 14);
  }

  lemma Record3Agrees()
    ensures AgreesWithParser(Fallback2025[3])
  {
    RecordAgrees(Fallback2025[3], 9, 1, 7);
  }

  lemma Record4Agrees()
    ensures AgreesWithParser(Fallback2025[4])
  {
    assert Fallback2025[4].weekRange == SameMonthText(8, 25, 31) by { assert NatStr(25) == "25"; assert NatStr(31) == "31"; }
    RecordAgrees(Fallback2025[4], 8, 25, 31);
  }

  lemma Record5Agrees()
    ensures AgreesWithParser(Fallback2025[5])
  {
    assert Fallback2025[5].weekRange == SameMonthText(10, 1, 7) by { assert NatStr(10) == "10"; }
    RecordAgrees(Fallback2025[5], 10, 1, 7);
  }

  /**
   * The fallback records are what the link parser would have made of
   * their week ranges: the same two dates and the same section.
   */
  lemma FallbackAgreesWithParser()
    ensures forall k :: 0 <= k < |Fallback2025| ==> AgreesWithParser(Fallback2025[k])
  {
    forall k | 0 <= k < |Fallback2025|
      ensures AgreesWithParser(Fallback2025[k])
    {
      if k == 0 { Record0Agrees(); }
      else if k == 1 { Record1Agrees(); }
      else if k == 2 { Record2Agrees(); }
      else if k == 3 { Record3Agrees(); }
      else if k == 4 { Record4Agrees(); }
      else { Record5Agrees(); }
    }
  }
}
