# LDS teaching agent: verified model of the curriculum date-to-lesson logic

This project is a Dafny model of the deterministic core of a Korean
Sunday-school teaching assistant. It covers:

- **The week-table manager** (`weekly_curriculum_manager.py`):
  - It parses Korean date ranges (`9월8일~14일`, `9월29일~10월5일`) into calendar dates.
  - It reads lesson links from the church's manual index: it normalises the link text, picks the first matching date pattern and scripture pattern, and builds the URL and the section label.
  - It keeps a per-year store with replace-on-refresh semantics.
  - It resolves a year cache-first: stored data, then the website with up to three attempts, then a built-in fallback.
- **The date → lesson lookup** (`curriculum_scraper_new.py` and its older twin `curriculum_scraper.py`):
  - It finds the first week whose range holds a date.
  - It builds the lesson URL from a table of slugs.
  - It projects the week list for display.
  - It assembles a bounded digest of a lesson page.
  - It always answers, falling back to a placeholder.
  - It carries the static 2025 table of 53 weeks.
- **The API layer** (`backend/main.py`, `app_azure.py`):
  - partition-key sanitising;
  - the 600-character answer truncation;
  - the current-week scan;
  - the materials cache;
  - the Q&A log and its newest-first listing.
- **The UI state**:
  - `app.py`: the week filter and index remapping, the session reset on a week change, and the stored-material shortcut.
  - `frontend/src/stores/curriculum.js`: the Pinia store's getters and actions as state transitions.

Modelling choices:

- **Dates** are validated (year, month, day) triples, ordered lexicographically. This is the order Python's `datetime` comparison gives once the time of day is dropped.
- **Regular-expression search** is a hand-written leftmost substring matcher (`Patterns.Search`). Every pattern has one matcher built from literal, digit-run, space-run and character-class steps. Runs are matched greedily without backtracking. In every pattern of the source, a run is followed by a token that the run cannot consume, so backtracking could never change the match.
- **Web pages** are sequences of link (href, text) pairs and element texts.
- **The databases** are an in-memory `CurriculumDb` class (rows plus a status map), an `AppDb` class (material rows and Q&A rows), and `Session` / `CurriculumStore` classes for the UI state.
- **Everything outside the core is a parameter**: the LLM, the network fetches, the lesson-page fetch, "today" and the clock.

Behaviour that follows the code where the code and its documentation disagree:

- **Retries.** Every failed index fetch is retried, whatever its HTTP status, because the code catches every `RequestException`. There are at most 3 attempts, with waits of 2 then 4 seconds, and then the fallback (`Extraction.FetchIndexPage`).
- **Cross-month ranges.** Both dates get the same year, with no rollover. So `12월29일~1월4일` yields an end date before its start date (`DateRangeProofs.DecemberToJanuaryGoesBackwards`).
- **Truncated answers** can be up to 603 characters long: 600 plus the `"..."` suffix (`Api.Truncate`).
- **Partition keys.** `backend/main.py` writes both `'~'` and `'/'` as `'-'`. So week ranges spelled with `~` and with `-` share one partition (`Api.TildeAndHyphenSharePartition`). Distinct keys are characterised exactly by `Api.PartitionKeysCoincide`.
- **Week ranges from the store.** Ranges written with `~` (as the link parser writes them) are never slug keys. So a stored week always gets the manual's index URL (`ScraperNew.StoredWeeksGetIndexPage`). Only the static table's hyphenated ranges reach a lesson page.
- **The new scraper's no-match branch** refers to a variable that is never assigned. The raised error is caught by the handler that follows, so an unmatched date gets the placeholder with the 2025 index URL. The model returns that placeholder directly (`ScraperNew.CurriculumFor`).
- **The static 2025 table** has 53 rows, not 52. They partition 2025 exactly (`Schedule2025.TableIsChain`).

## Model

| member | source | states |
|---|---|---|
| Dates.MakeDate | weekly_curriculum_manager.py:358-359 | a date is built iff the triple is a real calendar day, otherwise no date (the `ValueError` path) |
| Patterns.Search | weekly_curriculum_manager.py:137-162 | `re.search`: a match exists iff the pattern matches at some position, and the result is the match at the leftmost such position |
| Patterns.FirstPattern | weekly_curriculum_manager.py:165-187 | the first pattern in list order that matches wins; every earlier pattern fails |
| Patterns.SearchFindsFirst | weekly_curriculum_manager.py:137-162 | when the pattern fails before position k and matches at k, the search returns the match at k |
| LinkParsing.ParseDateRange | weekly_curriculum_manager.py:347-379 | if the compact same-month pattern matches, the answer is (Y-M-D1, Y-M-D2) when both days exist and nothing otherwise. Else, if the cross-month pattern matches, it is (Y-M1-D1, Y-M2-D2) on the same terms. With no match there are no dates, and any dates returned are valid days of year Y |
| DateRangeProofs.ParseSameMonthForm | weekly_curriculum_manager.py:351-360 | `M월D1일~D2일` parses to (Y-M-D1, Y-M-D2) when both days exist, and to nothing when either does not |
| DateRangeProofs.ParseCrossMonthForm | weekly_curriculum_manager.py:363-373 | `M1월D1일~M2월D2일` parses to (Y-M1-D1, Y-M2-D2), both in year Y, and to nothing for an invalid day |
| DateRangeProofs.DecemberToJanuaryGoesBackwards | weekly_curriculum_manager.py:363-373 | a December-to-January range parses with its end date before its start date (no year rollover) |
| DateRangeProofs.CompactSameMonthMatches | weekly_curriculum_manager.py:351 | the same-month pattern captures exactly the month and both days of a well-formed text |
| DateRangeProofs.CompactCrossMonthMatches | weekly_curriculum_manager.py:363 | the cross-month pattern captures both months and both days |
| DateRangeProofs.SameMonthNeedsDayAfterTilde | weekly_curriculum_manager.py:351 | a same-month match needs a digit run ending in `일` right after the tilde |
| DateRangeProofs.CrossMonthTildeUnique | weekly_curriculum_manager.py:363 | a cross-month text has exactly one tilde, between the two dates |
| LinkParsing.MonthDay | weekly_curriculum_manager.py:138-141 | the `\d+월\s*\d+일` piece: a span of date characters that starts with a month and ends in `일` |
| LinkParsing.DayOnly | weekly_curriculum_manager.py:139-140 | the end piece of a same-month range: date characters containing no `월` |
| LinkParsing.CrossMonthSpaced | weekly_curriculum_manager.py:138 | a match yields two groups, each a date part |
| LinkParsing.SameMonthSpaced | weekly_curriculum_manager.py:139 | a match yields two groups, each a date part |
| LinkParsing.SameMonthEscaped | weekly_curriculum_manager.py:140 | a match yields two groups, each a date part |
| LinkParsing.CrossMonthEscaped | weekly_curriculum_manager.py:141 | a match yields two groups, each a date part |
| LinkParsing.CompactSameMonth | weekly_curriculum_manager.py:351 | a match yields three one- or two-digit numbers |
| LinkParsing.CompactCrossMonth | weekly_curriculum_manager.py:363 | a match yields four one- or two-digit numbers |
| LinkParsing.DatePatterns | weekly_curriculum_manager.py:137-142 | four date patterns in the improved parser and two in the original, in source order, cross-month first |
| LinkParsing.DatePatternGroups | weekly_curriculum_manager.py:144-159 | whichever date pattern wins, its two groups are date parts and the first starts with a month |
| LinkParsing.CleanPart | weekly_curriculum_manager.py:148-149 | removes every space (and, in the improved parser, every backslash) and adds no character |
| LinkParsing.NoTildeInPart | weekly_curriculum_manager.py:148-157 | a cleaned date part contains no tilde, so the joined range has exactly one separator |
| LinkParsing.FillEndMonth | weekly_curriculum_manager.py:152-155 | an end part without `월` gets the start's month prefixed; one that has `월` is kept |
| LinkParsing.NormaliseGroups | weekly_curriculum_manager.py:148-157 | from the captured start and end, both cleaned parts are free of spaces, tildes and (improved) backslashes; the start leads with its month and the end contains `월` |
| LinkParsing.NormaliseLinkDate | weekly_curriculum_manager.py:137-162 | a normalised range exists iff some date pattern matches; both parts are free of spaces, tildes and (improved) backslashes; the start leads with its month and the end contains `월` |
| LinkParsing.MonthMark | weekly_curriculum_manager.py:205 | the `(\d+)월` search yields one non-empty digit group |
| LinkParsing.LeadingMonthFound | weekly_curriculum_manager.py:205-206 | in a text that starts with its month, the month search finds exactly that month |
| LinkParsing.BookChapterRange | weekly_curriculum_manager.py:166 | a match yields two chapter numbers |
| LinkParsing.BookChapter | weekly_curriculum_manager.py:167 | a match yields one chapter number |
| LinkParsing.ScripturePatterns | weekly_curriculum_manager.py:165-172 | six scripture patterns in the improved parser and four in the original, in source order |
| LinkParsing.ScripturePatternGroups | weekly_curriculum_manager.py:174-184 | whichever scripture pattern wins, it yields one or two non-empty digit groups |
| LinkParsing.ScriptureChapters | weekly_curriculum_manager.py:174-187 | chapters exist iff some scripture pattern matches, and form a run iff the winner has two groups |
| LinkParsing.ScriptureLabel | weekly_curriculum_manager.py:180-187 | a label exists iff some scripture pattern matches; it starts with `교리와 성약 ` and ends with `편` |
| ScriptureProofs.RunLabelReadsBack | weekly_curriculum_manager.py:179-180 | the label `교리와 성약 a~b편` reads back as the run a..b |
| ScriptureProofs.ChapterLabelReadsBack | weekly_curriculum_manager.py:181-182 | the label `교리와 성약 a편` reads back as chapter a |
| ScriptureProofs.LabelReadsBack | weekly_curriculum_manager.py:174-187 | round trip: any label the parser writes parses back to the same chapters |
| ScriptureProofs.ScriptureLabelIdempotent | weekly_curriculum_manager.py:174-187 | relabelling a label gives the same label |
| ScriptureProofs.UrlOfLabel | weekly_curriculum_manager.py:252-267 | a stored label yields the lesson URL for its chapter or chapter run |
| LinkParsing.UrlFromScripture | weekly_curriculum_manager.py:252-267 | the URL lies under the year's manual; with no chapter number it is the manual's index page |
| LinkParsing.SectionLabel | weekly_curriculum_manager.py:205-206 | the section is `기타` iff the range names no month |
| LinkParsing.SectionOfLinkDate | weekly_curriculum_manager.py:205-206 | the section of a normalised range is its start month followed by `월` |
| LinkParsing.AbsoluteUrl | weekly_curriculum_manager.py:196-199 | an href starting with `/` gets the base URL prefixed; any other non-empty href is kept |
| LinkParsing.ParseLessonLinkImproved | weekly_curriculum_manager.py:126-217 | a record exists iff a date pattern and a scripture pattern match and the range parses; its start and end are exactly the dates the range parser gives for the normalised range; its other fields are the normalised range, the label, the absolute or synthesised URL, and the start month as section |
| LinkParsing.ParseLessonLink | weekly_curriculum_manager.py:269-345 | the original parser: same conditions over its shorter pattern lists; the dates are the range parser's, and the section is the month it is given |
| TextScan.SeptemberMatch | weekly_curriculum_manager.py:227-232 | one of the four fixed September patterns: date range, lesson title and chapter run on one line |
| TextScan.TailOnLineIff | weekly_curriculum_manager.py:228-231 | true iff the chapter tail occurs later on the same line |
| TextScan.ScanLessons | weekly_curriculum_manager.py:234-248 | the append loop yields exactly the records of the fixed lessons found in the text, in order |
| TextScan.ScanRecordsStep | weekly_curriculum_manager.py:234-248 | each loop step appends the lesson's record iff its pattern matches |
| TextScan.ParseFromTextContent | weekly_curriculum_manager.py:219-250 | the text fallback yields the records of the September lessons found |
| TextScan.ScanRecordIsRecordOf | weekly_curriculum_manager.py:236-247 | the record built for a lesson carries its dates, title, chapter label and URL |
| TextScan.ScanRecordsAreLessons | weekly_curriculum_manager.py:234-248 | every scanned record belongs to one of the lessons, and there are no more records than lessons |
| TextScan.ScanRecordsInSeptember | weekly_curriculum_manager.py:219-250 | at most four records, each a September week in section `9월` with its start before its end |
| FallbackData.FallbackFor | weekly_curriculum_manager.py:474-543 | fallback data is non-empty iff the year is 2025, and every record is of that year |
| FallbackData.RecordAgrees | weekly_curriculum_manager.py:347-379 | a fallback record's dates and section are what the parser derives from its range |
| FallbackData.FallbackAgreesWithParser | weekly_curriculum_manager.py:474-543 | every built-in 2025 record agrees with the date parser |
| FallbackData.SectionOfSameMonthText | weekly_curriculum_manager.py:205-206 | the section of `M월D1일~D2일` is `M월` |
| Extraction.DoctrineLinks | weekly_curriculum_manager.py:93-103 | keeps exactly the links whose href names `doctrine-and-covenants` (for 2025) or whose text has `교리와` with `편` or `D&C`, in order |
| Extraction.FilterDoctrineLinks | weekly_curriculum_manager.py:93-103 | the filter loop returns exactly those links |
| Extraction.LinkRecordsAreParses | weekly_curriculum_manager.py:108-111 | every record is the improved parse of one of the links |
| Extraction.LinkRecordsOfYear | weekly_curriculum_manager.py:108-111 | every record the link parse yields is dated in the requested year |
| Extraction.ParseLinks | weekly_curriculum_manager.py:108-111 | the parse loop returns exactly those records |
| Extraction.ScanRecordsOfYear | weekly_curriculum_manager.py:219-250 | text-scan records all belong to the requested year |
| Extraction.PageRecords | weekly_curriculum_manager.py:107-117 | the link records when there are any, and otherwise exactly the text-scan records; all are of the year |
| Extraction.FirstPage | weekly_curriculum_manager.py:47-83 | no page iff all three attempts fail; otherwise the page of some attempt within the bound |
| Extraction.FetchIndexPage | weekly_curriculum_manager.py:47-83 | at most 3 attempts, each earlier one failed, waits 2 then 4 seconds, and the page of the first success |
| Extraction.Extracted | weekly_curriculum_manager.py:42-124 | the extracted records are of the year; they are the records of the first page fetched, or the fallback data when every attempt failed |
| Extraction.ExtractWeeklyData | weekly_curriculum_manager.py:42-124 | the extraction method yields exactly that |
| WeekStore.Without | weekly_curriculum_manager.py:391 | the rows left after deleting a year are exactly the other years' rows |
| WeekStore.RowsOf | weekly_curriculum_manager.py:429-435 | the rows selected for a year are exactly that year's rows |
| WeekStore.SortByStartDesc | weekly_curriculum_manager.py:434 | `ORDER BY start_date DESC`: sorted newest first and a permutation of its input |
| WeekStore.QueryOrder | weekly_curriculum_manager.py:424-452 | the weeks read for a year come newest first |
| WeekStore.QueryContents | weekly_curriculum_manager.py:424-452 | the weeks read for a year are exactly that year's stored rows |
| WeekStore.CurriculumDb.constructor | app_azure.py:130-153 | an empty store: no rows and no status |
| WeekStore.CurriculumDb.SaveWeeklyData | weekly_curriculum_manager.py:381-422 | empty data or a key clash with other years leaves the store untouched and fails; otherwise the year's rows become exactly the data, status `completed` with the row count, and (year, start, end) stays unique |
| WeekStore.CurriculumDb.GetWeeklyData | weekly_curriculum_manager.py:424-452 | returns the year's stored weeks, newest first |
| WeekStore.CurriculumDb.EnsureYearData | weekly_curriculum_manager.py:454-472 | a year already complete succeeds untouched; otherwise extracted (or fallback) data is saved, success means the year is ready, and nothing to save fails |
| WeekStore.ToSave | weekly_curriculum_manager.py:460-467 | the records to save are of the year, and are empty iff extraction found nothing and the year is not 2025 |
| WeekStore.WithoutIsIdempotent | weekly_curriculum_manager.py:391 | deleting a year twice is deleting it once |
| WeekStore.WithoutOwnYear | weekly_curriculum_manager.py:391-404 | deleting a year from data of that year leaves nothing |
| WeekStore.SavedYearReadsBack | weekly_curriculum_manager.py:381-452 | after a save, reading the year returns exactly the data saved and the other years are unchanged |
| WeekStore.SaveTwiceKeepsSecond | weekly_curriculum_manager.py:381-422 | saving a year twice leaves exactly the second data set |
| WeekStore.ReplaceYearKeepsDistinct | app_azure.py:130-144 | replacing a year with distinct data of that year keeps (year, start, end) unique |
| WeekStore.EnsureSucceedsWithFallback | weekly_curriculum_manager.py:460-472 | for 2025 with no extracted data, the fallback is saved and cannot clash |
| Weeks.FirstCovering | curriculum_scraper_new.py:39-52 | the first week in list order whose [start, end] holds the date; none iff no week holds it |
| Weeks.FindWeek | curriculum_scraper_new.py:39-52 | the search loop finds exactly that week |
| Weeks.ChainDisjoint | curriculum_scraper_new.py:92-478 | in a descending contiguous chain, a later week ends before an earlier one starts |
| Weeks.ChainCovers | curriculum_scraper_new.py:92-478 | a contiguous chain holds every day between its first start and last end |
| Weeks.ChainWithinSpan | curriculum_scraper_new.py:92-478 | every week of a partition lies within its span |
| Weeks.ChainIsPartition | curriculum_scraper_new.py:92-478 | every day of the span lies in exactly one week, so the lookup always succeeds |
| Schedule2025.TableIsChain | curriculum_scraper_new.py:92-478 | the 53 weeks of 2025 partition 2025-01-01..2025-12-31 |
| Schedule2025.EveryDayOf2025Covered | curriculum_scraper_new.py:92-478 | every day of 2025 lies in some week of the table |
| Schedule2025.WeeksOf2025Disjoint | curriculum_scraper_new.py:92-478 | no day of 2025 lies in two weeks |
| Schedule2025.EveryRangeHasSlug | curriculum_scraper_new.py:486-552 | every week range of the table is a key of the slug map |
| Schedule2025.NoTildeInSlugKeys | curriculum_scraper_new.py:486-552 | no slug key contains a tilde |
| ScraperNew.GenerateDirectUrl | curriculum_scraper_new.py:480-559 | the URL lies under the 2025 manual, and is a lesson page iff the range is a slug key |
| ScraperNew.TableWeeksHaveLessonPages | curriculum_scraper_new.py:486-559 | every week of the static table gets a lesson page URL |
| ScraperNew.StoredWeeksGetIndexPage | curriculum_scraper_new.py:554-559 | a week parsed from a link, with a `~` range, always gets the index URL |
| ScraperNew.LongParagraphs | curriculum_scraper_new.py:584-587 | keeps only paragraphs longer than 20 characters |
| ScraperNew.LongParagraphsFromPage | curriculum_scraper_new.py:584-587 | every kept paragraph comes from the page |
| ScraperNew.LongParagraphsComplete | curriculum_scraper_new.py:584-587 | every paragraph of the page longer than 20 characters is kept |
| ScraperNew.KeepLongParagraphs | curriculum_scraper_new.py:584-587 | the append loop keeps exactly those paragraphs |
| ScraperNew.SubheadingLines | curriculum_scraper_new.py:591-594 | each kept h3 line starts with `\n## ` and holds more than 5 characters of heading |
| ScraperNew.SubheadingLinesFromPage | curriculum_scraper_new.py:591-594 | every line is `\n## ` plus an h3 of the page longer than 5 characters |
| ScraperNew.SubheadingLinesComplete | curriculum_scraper_new.py:591-594 | every h3 of the page longer than 5 characters gets its `\n## ` line |
| ScraperNew.KeepSubheadings | curriculum_scraper_new.py:591-594 | the append loop keeps exactly those lines |
| ScraperNew.Sections | curriculum_scraper_new.py:570-594 | at most 2 + 15 + 10 sections, none empty |
| ScraperNew.DigestNeverEmpty | curriculum_scraper_new.py:596-600 | the digest is never empty, and starts with the first section when there is one |
| ScraperNew.LessonContent | curriculum_scraper_new.py:561-604 | the method returns the digest, or the placeholder for a missing page |
| ScraperNew.TwoDigits | curriculum_scraper_new.py:56 | zero-padded month and day: two digits reading back as the number |
| ScraperNew.CurriculumFor | curriculum_scraper_new.py:19-68 | week info exists iff some week holds the date; the answer is then the FIRST such week in list order (no earlier week holds the date), with its title, digest and URL; otherwise the placeholder with the index URL |
| ScraperNew.StaticMapping | curriculum_scraper_new.py:619-624 | the static table is used only for 2025; other years get no weeks |
| ScraperNew.WeekMappingFromDb | curriculum_scraper_new.py:606-624 | with a working store: a ready year leaves the store unchanged; otherwise the extracted or fallback records replace the year's rows and its status records their count, unless there is nothing to save or a key clashes, in which case nothing changes; the answer is then that year's stored weeks, newest first. A failing store gives the static mapping and changes nothing |
| ScraperNew.GetCurriculumByDate | curriculum_scraper_new.py:19-68 | always answers: a covering week, or the placeholder. With the store, the year is first loaded exactly as `ensure_year_data` does (same store effect as WeekMappingFromDb), and the answer is the first-match lookup over the year's stored weeks, newest first; without it, the lookup over the static table, with the store unchanged |
| ScraperNew.StaticLookupFindsEvery2025Day | curriculum_scraper_new.py:19-68 | every 2025 day finds a week with a lesson page URL |
| ScraperNew.AvailableWeeks | curriculum_scraper_new.py:70-90 | one entry per week in order, fields copied, display text `range - keywords` |
| ScraperNew.LessonLinks | curriculum_scraper_new.py:636-646 | keeps only links with non-empty text and a lesson href, with the base URL prefixed |
| ScraperNew.LessonLinksComplete | curriculum_scraper_new.py:636-646 | every link with text and a lesson href is listed, with the base URL prefixed |
| ScraperNew.WeeklyCurriculumList | curriculum_scraper_new.py:626-652 | the list of those links, or empty when the page cannot be read |
| ScraperOld.OldRows | curriculum_scraper.py:92-478 | the old table's rows carry the same dates as the new table, keyed by position |
| ScraperOld.OldDirectUrl | curriculum_scraper.py:480-559 | the URL lies under the 2025 manual, and is a lesson page iff the key is in the slug map |
| ScraperOld.OldTableWeeksHaveLessonPages | curriculum_scraper.py:480-559 | 53 rows and 53 slugs, and every row gets a lesson page |
| ScraperOld.FirstOldCovering | curriculum_scraper.py:28-39 | the first row holding the date; none iff no row holds it |
| ScraperOld.FindOldWeek | curriculum_scraper.py:28-39 | the search loop finds exactly that row |
| ScraperOld.OldRowsFindSameWeek | curriculum_scraper.py:28-39 | the old lookup finds the same week as the new one |
| ScraperOld.OldAnswer | curriculum_scraper.py:19-70 | found iff some row holds the date, with the digest of its page; otherwise the placeholder with the index URL |
| ScraperOld.GetCurriculumByDateOld | curriculum_scraper.py:19-70 | the lookup method returns exactly that answer |
| ScraperOld.RowsAnswerFound | curriculum_scraper.py:41-54 | over a table covering the date, the answer is the first covering week |
| ScraperOld.OldLookupFindsEvery2025Day | curriculum_scraper.py:19-54 | every 2025 day finds its week with a lesson page |
| ScraperOld.OldLookupOutside2025 | curriculum_scraper.py:56-61 | a day outside 2025 gets the placeholder with the index URL |
| ScraperOld.AvailableWeeksOld | curriculum_scraper.py:72-90 | one choice per row of the static table, in order |
| Ordering.StrLeTotal | backend/main.py:406 | the string order is total |
| Ordering.StrLeTransitive | backend/main.py:406 | the string order is transitive |
| Ordering.StrLeAntisymmetric | backend/main.py:406 | the string order is antisymmetric |
| Ordering.SortDesc | backend/main.py:406 | sorting by key descending gives a descending permutation of the input |
| Api.GetTableClient | backend/main.py:59-65 | a missing or empty connection string is a 500 error; otherwise a client for the named table |
| Api.ReplaceCharPointwise | backend/main.py:98-99 | replacing a character by another maps every position independently |
| Api.SafeWeek | backend/main.py:98-99 | space becomes `_`, and `~` and `/` become `-`, position by position |
| Api.CreatePartitionKey | backend/main.py:96-100 | the key is the sanitised week, `_`, then the audience; its week part has no space, tilde or slash |
| Api.PartitionKeysCoincide | backend/main.py:96-100 | two keys coincide iff the sanitised weeks and the audiences agree |
| Api.TildeAndHyphenSharePartition | backend/main.py:96-100 | writing `-` for a `~` in the week range gives the same key |
| Api.LastEnding | backend/main.py:353-358 | the last index of a sentence ending, or -1; nothing after it is an ending |
| Api.CutPoint | backend/main.py:353-358 | the `rfind` loop computes the last sentence ending |
| Api.Truncate | backend/main.py:351-363 | an answer of at most 600 characters is unchanged; any result has at most 603 characters |
| Api.TruncateAtSentenceEnd | backend/main.py:360-361 | with a sentence ending past 500, the result is the prefix through it: 502 to 600 characters, ending in that mark |
| Api.TruncateWithEllipsis | backend/main.py:362-363 | otherwise the result is the stripped first 600 characters plus `...`, a prefix of the answer |
| Api.TruncateAnswer | app_azure.py:324-336 | the second copy of the truncation computes the same rule |
| Api.GetCurrentWeek | backend/main.py:228-237 | the first week holding today, else index 0 with the first week, else none |
| Api.CurrentWeekIsFirstCovering | app_azure.py:212-231 | the scanned index is the first covering week |
| Api.ChoicesCoverLikeTable | app_azure.py:220-229 | the scraper's choices hold a date exactly when the table's weeks do |
| Api.CurrentWeekEndpoint | app_azure.py:212-231 | for a day of 2025, the endpoint returns the week that holds it |
| Api.InPartition | backend/main.py:402-403 | the entities kept all lie in the requested partition |
| Api.InPartitionMembers | backend/main.py:402-403 | an entity is kept iff it is stored in that partition |
| Api.Items | backend/main.py:408-415 | one item per entity |
| Api.QaListMain | backend/main.py:394-421 | a configuration failure is a 500 error; an unreadable table gives []; otherwise items newest first, a missing timestamp counting as `''` |
| Api.QaListMainContents | backend/main.py:394-421 | the items listed are exactly those of the partition's entities |
| AzureApp.LatestMaterial | app_azure.py:253-264 | none iff no stored row matches (title, audience, week); otherwise the most recent match |
| AzureApp.QaListOf | app_azure.py:357-368 | the rows of the (week, audience) pair, newest first |
| AzureApp.QaListMembers | app_azure.py:357-368 | a row is listed iff it belongs to the pair |
| AzureApp.AppDb.constructor | app_azure.py:104-167 | empty materials and Q&A tables |
| AzureApp.AppDb.GenerateMaterial | app_azure.py:249-297 | a cached material is returned as cached with nothing inserted; otherwise one row is generated and inserted, or a 500 with nothing changed |
| AzureApp.AppDb.Chat | app_azure.py:300-350 | a successful answer is truncated and appended as exactly one Q&A row; a failure is a 500 with nothing changed |
| AzureApp.AppDb.GetQaList | app_azure.py:353-371 | returns the pair's rows, newest first |
| AzureApp.StoredMaterialIsServed | app_azure.py:253-294 | material just stored is what the next request is served |
| AzureApp.LoggedAnswerListedFirst | app_azure.py:338-368 | a just-logged answer heads its pair's list |
| StreamlitApp.CurrentWeekIndex | app.py:196-206 | the first week holding today, else 0 |
| StreamlitApp.FilterWeeks | app.py:209-218 | the weeks starting on or after the current week's start, in order, with their original indices; the indices are exactly `StartingFrom` of the current week's start |
| StreamlitApp.StartingFromIsFilter | app.py:209-218 | the offered indices ascend, each starts on or after the current week's start, and none is missed |
| StreamlitApp.CurrentFilteredIndex | app.py:221-225 | the current week's position in the filtered list, else 0 |
| StreamlitApp.SelectWeek | app.py:228-239 | the selected week is a valid index starting no earlier than the current week. With no pick it is the current week; a pick at position p among the offered weeks selects the p-th offered week's index |
| StreamlitApp.CurrentWeekUnique | app.py:196-206 | the current week (the first holding today, else the first) is unique |
| StreamlitApp.Session.constructor | app.py:244-253 | a fresh session has no week, material or chat |
| StreamlitApp.Session.ObserveWeek | app.py:244-253 | a changed week clears material and chat and records the new week; the same week keeps them |
| StreamlitApp.Session.GenerateButton | app.py:263-288 | stored material for the triple is used without generating; new material is saved before it is shown |
| UiStore.CurriculumStore.constructor | frontend/src/stores/curriculum.js:11-27 | the store's initial state |
| UiStore.CurriculumStore.SelectedWeek | frontend/src/stores/curriculum.js:30 | the selected week iff the index is in range |
| UiStore.CurriculumStore.WeekRange | frontend/src/stores/curriculum.js:31 | the selected week's range, or `''` |
| UiStore.CurriculumStore.LoadQaList | frontend/src/stores/curriculum.js:168-176 | no change when the range is empty or the request fails; otherwise the list is replaced |
| UiStore.CurriculumStore.LoadLessonData | frontend/src/stores/curriculum.js:61-77 | with a selected week, loads its lesson and then its Q&A list, or records the error; nothing else changes |
| UiStore.CurriculumStore.LoadInitialData | frontend/src/stores/curriculum.js:34-59 | sets both indices to the server's index and loads the selected week's lesson and Q&A list, or records the error; always ends not loading; nothing else changes |
| UiStore.CurriculumStore.SelectWeek | frontend/src/stores/curriculum.js:79-89 | the same index changes nothing. Another index clears material, chat and the cached flag, selects it and loads its lesson and Q&A list, or records the lesson error; the other fields are unchanged |
| UiStore.CurriculumStore.SetTargetAudience | frontend/src/stores/curriculum.js:91-101 | the same audience changes nothing. Another clears material, chat and the cached flag, is set, and reloads the Q&A list for the selected week and the new audience; the other fields are unchanged |
| UiStore.CurriculumStore.GenerateMaterial | frontend/src/stores/curriculum.js:103-125 | no lesson or a generation in flight changes nothing; otherwise it ends not generating, with the material and cached flag or the error, and no other field changes |
| UiStore.CurriculumStore.SendChatMessage | frontend/src/stores/curriculum.js:127-166 | when guarded, nothing changes. Otherwise exactly two messages are appended, user then assistant, and it ends not loading. After a successful answer the Q&A list is reloaded; no other field changes |

## Left out

- HTTP, BeautifulSoup, axios (`frontend/src/api.js`) and the FastAPI/Streamlit routing and rendering are left out. Fetches and page contents are parameters or plain sequences.
- Retry waits are recorded as numbers and nothing sleeps.
- SQLite and Azure Table drivers, SQL text, commits and the row-key timestamps are left out. The stores are in-memory classes. A database failure is an explicit flag (`dbAvailable`) or an absent value.
- The LLM and prompt-template loading are left out. Generation is a function parameter that may fail.
- `datetime.now()` is left out. "Today" is a parameter.
- Logging is left out.
- The maintenance scripts `delete_2026_data.py`, `execute_delete.py`, `run_delete_2026.py`, `fix_tilde.py` and `run_app.py` are not part of this model.
- WeekStore.SortByStartDesc and Ordering.SortDesc: they give a sorted permutation, but Python's sort stability among equal keys is not modelled.
- AzureApp.QaListOf: `created_at` ties are resolved as reverse insertion order. This is the order the timestamps would give.
- AzureApp.LatestMaterial: returns the last matching row inserted. Rows stored in the same second tie on `created_at`, and SQLite may then return any of them; the model does not capture that choice.
- ScraperOld: the old scraper's Korean literals are encoding-corrupted. Its rows are therefore keyed by position, and their range texts, keywords and sections are not modelled. Its 53 URL slugs are plain ASCII and are modelled verbatim (`OldSlugList`), and so are its dates, its lookup and its fallbacks.
- ScraperOld: curriculum_scraper.py as stored is not valid Python. Lines 58 and 67 hold an f-string whose `strftime('%m??%d??)` never closes its quote, and from line 488 on the keys of `url_mapping` lose their closing quote the same way (`'12??29??31??: '…`). Every caller's lazy `from curriculum_scraper import CurriculumScraper` therefore raises SyntaxError, which its `except Exception` catches:
  - backend/main.py:208-254 and app_azure.py:200-246 answer 500;
  - app.py:84-90 returns `[]`;
  - app.py:61-79 returns `None`.
  The ScraperOld members, `Api.ChoicesCoverLikeTable` and `Api.CurrentWeekEndpoint` model the evidently intended, loadable module, not this import failure.
- ScraperOld: `get_lesson_content` and `get_weekly_curriculum_list` are identical to the new scraper's. They reuse `ScraperNew.LessonContent` and `ScraperNew.WeeklyCurriculumList`.
- The date format round trip (`strftime`/`strptime`) is not modelled. Dates are stored as values.
- Python's `\s` is modelled by the code points `str.isspace` accepts. Unicode normalisation is not modelled.
- `\d` and `int()` are modelled for the ASCII digits `0`-`9` only. Python also accepts other Unicode decimal digits (category Nd, such as `١٠`), so a link text written with them yields a record in the source and none in the model.
- UiStore.CurriculumStore: each action is atomic. Interleavings of concurrent `await`s in the browser are not modelled.
- UiStore.CurriculumStore: error strings from the server are not modelled. A failed request records the store's fixed message.
- StreamlitApp.SelectWeek: an out-of-range pick falls back to the current week's position. The widget itself cannot produce one.
- AzureApp.AppDb: the `weekly_curriculum` and `curriculum_status` constraints are modelled by WeekStore's `DistinctKeys` and status map, not by a separate table here.
