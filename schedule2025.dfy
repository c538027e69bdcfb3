/**
 * The 2025 week table `get_week_mapping_2025` writes out
 * (curriculum_scraper_new.py:90-478) and the lesson-page slugs of
 * `generate_direct_url` (curriculum_scraper_new.py:480-559), both grouped
 * by month as the source groups them.  The table lists the weeks latest
 * first; each starts the day after the next one ends, so together they
 * partition 2025, and every week's range has a slug.
 */
module Schedule2025 {
  import opened Wrappers
  import opened Dates
  import opened Weeks

  function Row(start: Date, end: Date, weekRange: string, titleKeywords: string, section: string): Week {
    Week(start, end, weekRange, titleKeywords, section, None, None)
  }

  /** curriculum_scraper_new.py:95-130 */
  const December: seq<Week> := [
    Row(Date(2025, 12, 29), Date(2025, 12, 31), "12월 29일-31일", "교리와 성약 137-138편", "12월"),
    Row(Date(2025, 12, 22), Date(2025, 12, 28), "12월 22일-28일", "교리와 성약 135-136편", "12월"),
    Row(Date(2025, 12, 15), Date(2025, 12, 21), "12월 15일-21일", "교리와 성약 133-134편", "12월"),
    Row(Date(2025, 12, 8), Date(2025, 12, 14), "12월 8일-14일", "교리와 성약 131-132편", "12월"),
    Row(Date(2025, 12, 1), Date(2025, 12, 7), "12월 1일-7일", "교리와 성약 129-130편", "12월")
  ]

  /** curriculum_scraper_new.py:131-159 */
  const November: seq<Week> := [
    Row(Date(2025, 11, 24), Date(2025, 11, 30), "11월 24일-30일", "교리와 성약 127-128편", "11월"),
    Row(Date(2025, 11, 17), Date(2025, 11, 23), "11월 17일-23일", "교리와 성약 125-126편", "11월"),
    Row(Date(2025, 11, 10), Date(2025, 11, 16), "11월 10일-16일", "교리와 성약 123-124편", "11월"),
    Row(Date(2025, 11, 3), Date(2025, 11, 9), "11월 3일-9일", "교리와 성약 121-122편", "11월")
  ]

  /** curriculum_scraper_new.py:160-188 */
  const October: seq<Week> := [
    Row(Date(2025, 10, 27), Date(2025, 11, 2), "10월 27일-11월 2일", "교리와 성약 119-120편", "10월"),
    Row(Date(2025, 10, 20), Date(2025, 10, 26), "10월 20일-26일", "교리와 성약 117-118편", "10월"),
    Row(Date(2025, 10, 13), Date(2025, 10, 19), "10월 13일-19일", "교리와 성약 115-116편", "10월"),
    Row(Date(2025, 10, 6), Date(2025, 10, 12), "10월 6일-12일", "교리와 성약 113-114편", "10월")
  ]

  /** curriculum_scraper_new.py:189-224 */
  const September: seq<Week> := [
    Row(Date(2025, 9, 29), Date(2025, 10, 5), "9월 29일-10월 5일", "교리와 성약 111-112편", "9월"),
    Row(Date(2025, 9, 22), Date(2025, 9, 28), "9월 22일-28일", "교리와 성약 106-108편", "9월"),
    Row(Date(2025, 9, 15), Date(2025, 9, 21), "9월 15일-21일", "교리와 성약 102-105편", "9월"),
    Row(Date(2025, 9, 8), Date(2025, 9, 14), "9월 8일-14일", "교리와 성약 98-101편", "9월"),
    Row(Date(2025, 9, 1), Date(2025, 9, 7), "9월 1일-7일", "교리와 성약 94-97편", "9월")
  ]

  /** curriculum_scraper_new.py:225-253 */
  const August: seq<Week> := [
    Row(Date(2025, 8, 25), Date(2025, 8, 31), "8월 25일-31일", "교리와 성약 101-102편", "8월"),
    Row(Date(2025, 8, 18), Date(2025, 8, 24), "8월 18일-24일", "교리와 성약 99-100편", "8월"),
    Row(Date(2025, 8, 11), Date(2025, 8, 17), "8월 11일-17일", "교리와 성약 97-98편", "8월"),
    Row(Date(2025, 8, 4), Date(2025, 8, 10), "8월 4일-10일", "교리와 성약 95-96편", "8월")
  ]

  /** curriculum_scraper_new.py:254-289 */
  const July: seq<Week> := [
    Row(Date(2025, 7, 28), Date(2025, 8, 3), "7월 28일-8월 3일", "교리와 성약 84-86편", "7월"),
    Row(Date(2025, 7, 21), Date(2025, 7, 27), "7월 21일-27일", "교리와 성약 81-83편", "7월"),
    Row(Date(2025, 7, 14), Date(2025, 7, 20), "7월 14일-20일", "교리와 성약 77-80편", "7월"),
    Row(Date(2025, 7, 7), Date(2025, 7, 13), "7월 7일-13일", "교리와 성약 76편", "7월"),
    Row(Date(2025, 6, 30), Date(2025, 7, 6), "6월 30일-7월 6일", "교리와 성약 71-75편", "7월")
  ]

  /** curriculum_scraper_new.py:290-318 */
  const June: seq<Week> := [
    Row(Date(2025, 6, 23), Date(2025, 6, 29), "6월 23일-29일", "교리와 성약 67-70편", "6월"),
    Row(Date(2025, 6, 16), Date(2025, 6, 22), "6월 16일-22일", "교리와 성약 65-66편", "6월"),
    Row(Date(2025, 6, 9), Date(2025, 6, 15), "6월 9일-15일", "교리와 성약 63-64편", "6월"),
    Row(Date(2025, 6, 2), Date(2025, 6, 8), "6월 2일-8일", "교리와 성약 60-62편", "6월")
  ]

  /** curriculum_scraper_new.py:319-347 */
  const May: seq<Week> := [
    Row(Date(2025, 5, 26), Date(2025, 6, 1), "5월 26일-6월 1일", "교리와 성약 58-59편", "5월"),
    Row(Date(2025, 5, 19), Date(2025, 5, 25), "5월 19일-25일", "교리와 성약 56-57편", "5월"),
    Row(Date(2025, 5, 12), Date(2025, 5, 18), "5월 12일-18일", "교리와 성약 54-55편", "5월"),
    Row(Date(2025, 5, 5), Date(2025, 5, 11), "5월 5일-11일", "교리와 성약 51-53편", "5월")
  ]

  /** curriculum_scraper_new.py:348-383 */
  const April: seq<Week> := [
    Row(Date(2025, 4, 28), Date(2025, 5, 4), "4월 28일-5월 4일", "교리와 성약 49-50편", "4월"),
    Row(Date(2025, 4, 21), Date(2025, 4, 27), "4월 21일-27일", "교리와 성약 46-48편", "4월"),
    Row(Date(2025, 4, 14), Date(2025, 4, 20), "4월 14일-20일", "교리와 성약 43-45편", "4월"),
    Row(Date(2025, 4, 7), Date(2025, 4, 13), "4월 7일-13일", "교리와 성약 41-42편", "4월"),
    Row(Date(2025, 3, 31), Date(2025, 4, 6), "3월 31일-4월 6일", "교리와 성약 38-40편", "4월")
  ]

  /** curriculum_scraper_new.py:384-412 */
  const March: seq<Week> := [
    Row(Date(2025, 3, 24), Date(2025, 3, 30), "3월 24일-30일", "교리와 성약 37편", "3월"),
    Row(Date(2025, 3, 17), Date(2025, 3, 23), "3월 17일-23일", "교리와 성약 35-36편", "3월"),
    Row(Date(2025, 3, 10), Date(2025, 3, 16), "3월 10일-16일", "교리와 성약 33-34편", "3월"),
    Row(Date(2025, 3, 3), Date(2025, 3, 9), "3월 3일-9일", "교리와 성약 30-32편", "3월")
  ]

  /** curriculum_scraper_new.py:413-441 */
  const February: seq<Week> := [
    Row(Date(2025, 2, 24), Date(2025, 3, 2), "2월 24일-3월 2일", "교리와 성약 27-29편", "2월"),
    Row(Date(2025, 2, 17), Date(2025, 2, 23), "2월 17일-23일", "교리와 성약 25-26편", "2월"),
    Row(Date(2025, 2, 10), Date(2025, 2, 16), "2월 10일-16일", "교리와 성약 23-24편", "2월"),
    Row(Date(2025, 2, 3), Date(2025, 2, 9), "2월 3일-9일", "교리와 성약 20-22편", "2월")
  ]

  /** curriculum_scraper_new.py:442-477 */
  const January: seq<Week> := [
    Row(Date(2025, 1, 27), Date(2025, 2, 2), "1월 27일-2월 2일", "교리와 성약 17-19편", "1월"),
    Row(Date(2025, 1, 20), Date(2025, 1, 26), "1월 20일-26일", "교리와 성약 14-16편", "1월"),
    Row(Date(2025, 1, 13), Date(2025, 1, 19), "1월 13일-19일", "교리와 성약 11-13편", "1월"),
    Row(Date(2025, 1, 6), Date(2025, 1, 12), "1월 6일-12일", "교리와 성약 8-10편", "1월"),
    Row(Date(2025, 1, 1), Date(2025, 1, 5), "1월 1일-5일", "교리와 성약 1-7편", "1월")
  ]

  /** `get_week_mapping_2025`. */
  const Table2025: seq<Week> :=
    December + November + October + September + August + July + June + May + April + March + February + January

  /** curriculum_scraper_new.py:487-492 */
  const DecemberSlugs: map<string, string> := map[
    "12월 29일-31일" := "52-doctrine-and-covenants-137-138",
    "12월 22일-28일" := "51-doctrine-and-covenants-135-136",
    "12월 15일-21일" := "50-doctrine-and-covenants-133-134",
    "12월 8일-14일" := "49-doctrine-and-covenants-131-132",
    "12월 1일-7일" := "48-doctrine-and-covenants-129-130"
  ]

  /** curriculum_scraper_new.py:493-497 */
  const NovemberSlugs: map<string, string> := map[
    "11월 24일-30일" := "47-doctrine-and-covenants-127-128",
    "11월 17일-23일" := "46-doctrine-and-covenants-125-126",
    "11월 10일-16일" := "45-doctrine-and-covenants-123-124",
    "11월 3일-9일" := "44-doctrine-and-covenants-121-122"
  ]

  /** curriculum_scraper_new.py:498-502 */
  const OctoberSlugs: map<string, string> := map[
    "10월 27일-11월 2일" := "43-doctrine-and-covenants-119-120",
    "10월 20일-26일" := "42-doctrine-and-covenants-117-118",
    "10월 13일-19일" := "41-doctrine-and-covenants-115-116",
    "10월 6일-12일" := "40-doctrine-and-covenants-113-114"
  ]

  /** curriculum_scraper_new.py:503-508 */
  const SeptemberSlugs: map<string, string> := map[
    "9월 29일-10월 5일" := "39-doctrine-and-covenants-111-112",
    "9월 22일-28일" := "38-doctrine-and-covenants-106-108",
    "9월 15일-21일" := "37-doctrine-and-covenants-102-105",
    "9월 8일-14일" := "36-doctrine-and-covenants-98-101",
    "9월 1일-7일" := "35-doctrine-and-covenants-94-97"
  ]

  /** curriculum_scraper_new.py:509-513 */
  const AugustSlugs: map<string, string> := map[
    "8월 25일-31일" := "34-doctrine-and-covenants-101-102",
    "8월 18일-24일" := "33-doctrine-and-covenants-99-100",
    "8월 11일-17일" := "32-doctrine-and-covenants-97-98",
    "8월 4일-10일" := "31-doctrine-and-covenants-95-96"
  ]

  /** curriculum_scraper_new.py:514-519 */
  const JulySlugs: map<string, string> := map[
    "7월 28일-8월 3일" := "31-doctrine-and-covenants-84-86",
    "7월 21일-27일" := "30-doctrine-and-covenants-81-83",
    "7월 14일-20일" := "29-doctrine-and-covenants-77-80",
    "7월 7일-13일" := "28-doctrine-and-covenants-76",
    "6월 30일-7월 6일" := "27-doctrine-and-covenants-71-75"
  ]

  /** curriculum_scraper_new.py:520-524 */
  const JuneSlugs: map<string, string> := map[
    "6월 23일-29일" := "26-doctrine-and-covenants-67-70",
    "6월 16일-22일" := "25-doctrine-and-covenants-65-66",
    "6월 9일-15일" := "24-doctrine-and-covenants-63-64",
    "6월 2일-8일" := "23-doctrine-and-covenants-60-62"
  ]

  /** curriculum_scraper_new.py:525-529 */
  const MaySlugs: map<string, string> := map[
    "5월 26일-6월 1일" := "22-doctrine-and-covenants-58-59",
    "5월 19일-25일" := "21-doctrine-and-covenants-56-57",
    "5월 12일-18일" := "20-doctrine-and-covenants-54-55",
    "5월 5일-11일" := "19-doctrine-and-covenants-51-53"
  ]

  /** curriculum_scraper_new.py:530-535 */
  const AprilSlugs: map<string, string> := map[
    "4월 28일-5월 4일" := "18-doctrine-and-covenants-49-50",
    "4월 21일-27일" := "17-doctrine-and-covenants-46-48",
    "4월 14일-20일" := "16-doctrine-and-covenants-43-45",
    "4월 7일-13일" := "15-doctrine-and-covenants-41-42",
    "3월 31일-4월 6일" := "14-doctrine-and-covenants-38-40"
  ]

  /** curriculum_scraper_new.py:536-540 */
  const MarchSlugs: map<string, string> := map[
    "3월 24일-30일" := "13-doctrine-and-covenants-37",
    "3월 17일-23일" := "12-doctrine-and-covenants-35-36",
    "3월 10일-16일" := "11-doctrine-and-covenants-33-34",
    "3월 3일-9일" := "10-doctrine-and-covenants-30-32"
  ]

  /** curriculum_scraper_new.py:541-545 */
  const FebruarySlugs: map<string, string> := map[
    "2월 24일-3월 2일" := "09-doctrine-and-covenants-27-29",
    "2월 17일-23일" := "08-doctrine-and-covenants-25-26",
    "2월 10일-16일" := "07-doctrine-and-covenants-23-24",
    "2월 3일-9일" := "06-doctrine-and-covenants-20-22"
  ]

  /** curriculum_scraper_new.py:546-552 */
  const JanuarySlugs: map<string, string> := map[
    "1월 27일-2월 2일" := "05-doctrine-and-covenants-17-19",
    "1월 20일-26일" := "04-doctrine-and-covenants-14-16",
    "1월 13일-19일" := "03-doctrine-and-covenants-11-13",
    "1월 6일-12일" := "02-doctrine-and-covenants-8-10",
    "1월 1일-5일" := "01-doctrine-and-covenants-1-7"
  ]

  /** `url_mapping`: week range to lesson-page slug. */
  const UrlSlugs: map<string, string> :=
    DecemberSlugs + NovemberSlugs + OctoberSlugs + SeptemberSlugs + AugustSlugs + JulySlugs + JuneSlugs + MaySlugs + AprilSlugs + MarchSlugs + FebruarySlugs + JanuarySlugs

  lemma DecemberIsChain()
    ensures IsDescendingChain(December)
  {
    forall k | 0 <= k < |December|
      ensures IsValid(December[k].start) && IsValid(December[k].end) && AtOrBefore(December[k].start, December[k].end)
    {
      if k == 0 { } else if k == 1 { } else if k == 2 { } else if k == 3 { }
    }
    forall k | 0 <= k < |December| - 1
      ensures NextDay(December[k + 1].end) == December[k].start
    {
      if k == 0 { } else if k == 1 { } else if k == 2 { }
    }
  }

  lemma DecemberHasSlugs()
    ensures forall w :: w in December ==> w.weekRange in DecemberSlugs
  {
  }

  lemma NovemberIsChain()
    ensures IsDescendingChain(November)
  {
    forall k | 0 <= k < |November|
      ensures IsValid(November[k].start) && IsValid(November[k].end) && AtOrBefore(November[k].start, November[k].end)
    {
      if k == 0 { } else if k == 1 { } else if k == 2 { }
    }
    forall k | 0 <= k < |November| - 1
      ensures NextDay(November[k + 1].end) == November[k].start
    {
      if k == 0 { } else if k == 1 { }
    }
  }

  lemma NovemberHasSlugs()
    ensures forall w :: w in November ==> w.weekRange in NovemberSlugs
  {
  }

  lemma OctoberIsChain()
    ensures IsDescendingChain(October)
  {
    forall k | 0 <= k < |October|
      ensures IsValid(October[k].start) && IsValid(October[k].end) && AtOrBefore(October[k].start, October[k].end)
    {
      if k == 0 { } else if k == 1 { } else if k == 2 { }
    }
    forall k | 0 <= k < |October| - 1
      ensures NextDay(October[k + 1].end) == October[k].start
    {
      if k == 0 { } else if k == 1 { }
    }
  }

  lemma OctoberHasSlugs()
    ensures forall w :: w in October ==> w.weekRange in OctoberSlugs
  {
  }

  lemma SeptemberIsChain()
    ensures IsDescendingChain(September)
  {
    forall k | 0 <= k < |September|
      ensures IsValid(September[k].start) && IsValid(September[k].end) && AtOrBefore(September[k].start, September[k].end)
    {
      if k == 0 { } else if k == 1 { } else if k == 2 { } else if k == 3 { }
    }
    forall k | 0 <= k < |September| - 1
      ensures NextDay(September[k + 1].end) == September[k].start
    {
      if k == 0 { } else if k == 1 { } else if k == 2 { }
    }
  }

  lemma SeptemberHasSlugs()
    ensures forall w :: w in September ==> w.weekRange in SeptemberSlugs
  {
  }

  lemma AugustIsChain()
    ensures IsDescendingChain(August)
  {
    forall k | 0 <= k < |August|
      ensures IsValid(August[k].start) && IsValid(August[k].end) && AtOrBefore(August[k].start, August[k].end)
    {
      if k == 0 { } else if k == 1 { } else if k == 2 { }
    }
    forall k | 0 <= k < |August| - 1
      ensures NextDay(August[k + 1].end) == August[k].start
    {
      if k == 0 { } else if k == 1 { }
    }
  }

  lemma AugustHasSlugs()
    ensures forall w :: w in August ==> w.weekRange in AugustSlugs
  {
  }

  lemma JulyIsChain()
    ensures IsDescendingChain(July)
  {
    forall k | 0 <= k < |July|
      ensures IsValid(July[k].start) && IsValid(July[k].end) && AtOrBefore(July[k].start, July[k].end)
    {
      if k == 0 { } else if k == 1 { } else if k == 2 { } else if k == 3 { }
    }
    forall k | 0 <= k < |July| - 1
      ensures NextDay(July[k + 1].end) == July[k].start
    {
      if k == 0 { } else if k == 1 { } else if k == 2 { }
    }
  }

  lemma JulyHasSlugs()
    ensures forall w :: w in July ==> w.weekRange in JulySlugs
  {
  }

  lemma JuneIsChain()
    ensures IsDescendingChain(June)
  {
    forall k | 0 <= k < |June|
      ensures IsValid(June[k].start) && IsValid(June[k].end) && AtOrBefore(June[k].start, June[k].end)
    {
      if k == 0 { } else if k == 1 { } else if k == 2 { }
    }
    forall k | 0 <= k < |June| - 1
      ensures NextDay(June[k + 1].end) == June[k].start
    {
      if k == 0 { } else if k == 1 { }
    }
  }

  lemma JuneHasSlugs()
    ensures forall w :: w in June ==> w.weekRange in JuneSlugs
  {
  }

  lemma MayIsChain()
    ensures IsDescendingChain(May)
  {
    forall k | 0 <= k < |May|
      ensures IsValid(May[k].start) && IsValid(May[k].end) && AtOrBefore(May[k].start, May[k].end)
    {
      if k == 0 { } else if k == 1 { } else if k == 2 { }
    }
    forall k | 0 <= k < |May| - 1
      ensures NextDay(May[k + 1].end) == May[k].start
    {
      if k == 0 { } else if k == 1 { }
    }
  }

  lemma MayHasSlugs()
    ensures forall w :: w in May ==> w.weekRange in MaySlugs
  {
  }

  lemma AprilIsChain()
    ensures IsDescendingChain(April)
  {
    forall k | 0 <= k < |April|
      ensures IsValid(April[k].start) && IsValid(April[k].end) && AtOrBefore(April[k].start, April[k].end)
    {
      if k == 0 { } else if k == 1 { } else if k == 2 { } else if k == 3 { }
    }
    forall k | 0 <= k < |April| - 1
      ensures NextDay(April[k + 1].end) == April[k].start
    {
      if k == 0 { } else if k == 1 { } else if k == 2 { }
    }
  }

  lemma AprilHasSlugs()
    ensures forall w :: w in April ==> w.weekRange in AprilSlugs
  {
  }

  lemma MarchIsChain()
    ensures IsDescendingChain(March)
  {
    forall k | 0 <= k < |March|
      ensures IsValid(March[k].start) && IsValid(March[k].end) && AtOrBefore(March[k].start, March[k].end)
    {
      if k == 0 { } else if k == 1 { } else if k == 2 { }
    }
    forall k | 0 <= k < |March| - 1
      ensures NextDay(March[k + 1].end) == March[k].start
    {
      if k == 0 { } else if k == 1 { }
    }
  }

  lemma MarchHasSlugs()
    ensures forall w :: w in March ==> w.weekRange in MarchSlugs
  {
  }

  lemma FebruaryIsChain()
    ensures IsDescendingChain(February)
  {
    forall k | 0 <= k < |February|
      ensures IsValid(February[k].start) && IsValid(February[k].end) && AtOrBefore(February[k].start, February[k].end)
    {
      if k == 0 { } else if k == 1 { } else if k == 2 { }
    }
    forall k | 0 <= k < |February| - 1
      ensures NextDay(February[k + 1].end) == February[k].start
    {
      if k == 0 { } else if k == 1 { }
    }
  }

  lemma FebruaryHasSlugs()
    ensures forall w :: w in February ==> w.weekRange in FebruarySlugs
  {
  }

  lemma JanuaryIsChain()
    ensures IsDescendingChain(January)
  {
    forall k | 0 <= k < |January|
      ensures IsValid(January[k].start) && IsValid(January[k].end) && AtOrBefore(January[k].start, January[k].end)
    {
      if k == 0 { } else if k == 1 { } else if k == 2 { } else if k == 3 { }
    }
    forall k | 0 <= k < |January| - 1
      ensures NextDay(January[k + 1].end) == January[k].start
    {
      if k == 0 { } else if k == 1 { } else if k == 2 { }
    }
  }

  lemma JanuaryHasSlugs()
    ensures forall w :: w in January ==> w.weekRange in JanuarySlugs
  {
  }

  /** The table is one chain of weeks from 2025-12-31 back to 2025-01-01. */
  lemma TableIsChain()
    ensures PartitionsSpan(Table2025, Date(2025, 1, 1), Date(2025, 12, 31)) && |Table2025| == 53
  {
    DecemberIsChain();
    NovemberIsChain();
    OctoberIsChain();
    SeptemberIsChain();
    AugustIsChain();
    JulyIsChain();
    JuneIsChain();
    MayIsChain();
    AprilIsChain();
    MarchIsChain();
    FebruaryIsChain();
    JanuaryIsChain();
    ChainAppend(December, November);
    ChainAppend(December + November, October);
    ChainAppend(December + November + October, September);
    ChainAppend(December + November + October + September, August);
    ChainAppend(December + November + October + September + August, July);
    ChainAppend(December + November + October + September + August + July, June);
    ChainAppend(December + November + October + September + August + July + June, May);
    ChainAppend(December + November + October + September + August + July + June + May, April);
    ChainAppend(December + November + October + September + August + July + June + May + April, March);
    ChainAppend(December + November + October + September + August + July + June + May + April + March, February);
    ChainAppend(December + November + October + September + August + July + June + May + April + March + February, January);
  }

  /** Every day of 2025 lies in some week of the table. */
  lemma EveryDayOf2025Covered(d: Date)
    requires IsValid(d) && d.year == 2025
    ensures exists k :: 0 <= k < |Table2025| && Covers(Table2025[k], d)
  {
    TableIsChain();
    ChainIsPartition(Table2025, Date(2025, 1, 1), Date(2025, 12, 31), d);
  }

  /** No day lies in two weeks of the table. */
  lemma WeeksOf2025Disjoint(d: Date)
    requires IsValid(d) && d.year == 2025
    ensures forall i, j :: (0 <= i < |Table2025| && 0 <= j < |Table2025|
      && Covers(Table2025[i], d) && Covers(Table2025[j], d)) ==> i == j
  {
    TableIsChain();
    ChainIsPartition(Table2025, Date(2025, 1, 1), Date(2025, 12, 31), d);
  }

  /** Every week range of the table is a key of the slug map. */
  lemma EveryRangeHasSlug()
    ensures forall w :: w in Table2025 ==> w.weekRange in UrlSlugs
  {
    DecemberHasSlugs();
    NovemberHasSlugs();
    OctoberHasSlugs();
    SeptemberHasSlugs();
    AugustHasSlugs();
    JulyHasSlugs();
    JuneHasSlugs();
    MayHasSlugs();
    AprilHasSlugs();
    MarchHasSlugs();
    FebruaryHasSlugs();
    JanuaryHasSlugs();
  }

  lemma DecemberKeysUseHyphens()
    ensures forall r :: r in DecemberSlugs ==> '~' !in r
  {
  }

  lemma NovemberKeysUseHyphens()
    ensures forall r :: r in NovemberSlugs ==> '~' !in r
  {
  }

  lemma OctoberKeysUseHyphens()
    ensures forall r :: r in OctoberSlugs ==> '~' !in r
  {
  }

  lemma SeptemberKeysUseHyphens()
    ensures forall r :: r in SeptemberSlugs ==> '~' !in r
  {
  }

  lemma AugustKeysUseHyphens()
    ensures forall r :: r in AugustSlugs ==> '~' !in r
  {
  }

  lemma JulyKeysUseHyphens()
    ensures forall r :: r in JulySlugs ==> '~' !in r
  {
  }

  lemma JuneKeysUseHyphens()
    ensures forall r :: r in JuneSlugs ==> '~' !in r
  {
  }

  lemma MayKeysUseHyphens()
    ensures forall r :: r in MaySlugs ==> '~' !in r
  {
  }

  lemma AprilKeysUseHyphens()
    ensures forall r :: r in AprilSlugs ==> '~' !in r
  {
  }

  lemma MarchKeysUseHyphens()
    ensures forall r :: r in MarchSlugs ==> '~' !in r
  {
  }

  lemma FebruaryKeysUseHyphens()
    ensures forall r :: r in FebruarySlugs ==> '~' !in r
  {
  }

  lemma JanuaryKeysUseHyphens()
    ensures forall r :: r in JanuarySlugs ==> '~' !in r
  {
  }

  /** The slug map's keys write ranges with '-', never with '~'. */
  lemma NoTildeInSlugKeys()
    ensures forall r :: r in UrlSlugs ==> '~' !in r
  {
    DecemberKeysUseHyphens();
    NovemberKeysUseHyphens();
    OctoberKeysUseHyphens();
    SeptemberKeysUseHyphens();
    AugustKeysUseHyphens();
    JulyKeysUseHyphens();
    JuneKeysUseHyphens();
    MayKeysUseHyphens();
    AprilKeysUseHyphens();
    MarchKeysUseHyphens();
    FebruaryKeysUseHyphens();
    JanuaryKeysUseHyphens();
  }
}
