# weibotoidea record pipeline, in Dafny

This project models the data path of *weibotoidea*. That tool turns the Weibo
hot-search list into product ideas, one pipeline stage per Python script:

- `fetch_weibo_hotspot.py` turns the hot-search list into numbered search
  queries (module `FetchQueries`).
- `analyze_hotspot_with_ai.py` loads the saved search results and extracts a
  short snippet from each. It then matches each result to its query, writes
  one prompt file per topic plus an index, and writes an instruction sheet
  that lists the first ten (module `Analyze`).
- `combine_results.py` merges the per-topic `analysis_results/result_*.json`
  records into `hotspot_analysis_results.json` (module `Aggregator`). Each
  record gets a rank from its file name when it has none, a title from the
  search results or the query list, and heat from the first query of its
  rank. The last file per rank wins, and the output is ordered by rank.
- Three report generators turn the records into statistics and table rows:
  `generate_apple_style_report.py` (`AppleReport`),
  `generate_html_report.py` (`HtmlReport`) and
  `generate_final_enhanced_report.py` (`EnhancedReport`). They share the
  score tiers and statistics in `Scores`. The client-side sort button of the
  report pages is the class `TableSort.SortToggle`.
- `generate_index_pages.py` parses `Y-M-D-h-m.html` report names, sorts them
  newest first, groups them by day and builds the archive page and the
  homepage (module `ArchiveIndex`).

Supporting modules:

- `PyJson` models parsed JSON values and the Python behaviour the scripts
  rely on: truthiness, `dict.get`, `a or b`, `str()` and the iteration of a
  value.
- `Files` is a file system: a map from path to file plus a set of
  directories. Directory listings, the clock (`Clock.DateTime`) and every
  rendered text (HTML, prompt and sheet templates, float `repr`) are
  parameters.
- `Text` holds decimal and zero-padded formatting, `:,` thousands grouping,
  `str.split`/`join`, code-point string order and the `re.search` patterns
  the scripts use.
- `Sorting` holds Python's stable `sort(key=…)`, slicing `s[:n]`,
  comprehensions with a filter, and maps.
- A script's exit is `Wrappers.Run`: `Exited(code)`, or `Crashed` for an
  uncaught exception.

Some behaviours of the code are easy to miss:

- Records without a usable rank do not reach the merged output. The code
  appends them to a list and then replaces that list with the rank
  dictionary's values (`Aggregator.UnrankedDropped`).
- A matching query's heat overwrites any heat the record already has. It is
  not a backfill (`Aggregator.HeatFromFirstQuery`).
- The Apple-style report cannot tell a missing or unreadable results file
  from an empty one: all three end with exit status 1
  (`AppleReport.EmptyOrMissingIsFalsy`).
- Archive day groups are ordered by their `YYYY年MM月DD日` string. That is
  the chronological order only for four-digit years
  (`ArchiveIndex.DateStrOrder`).
- The HTML report's loader sorts its file list by
  `int(re.search(r'result_(\d+)', …))`, so a name without digits raises
  there. Its rank-0 fallback for such names can never be reached.
- The enhanced report has no empty-input check. An empty results file gives
  a page with zero topics.

## Model

| member | source | states |
|---|---|---|
| FetchQueries.QueryAt | fetch_weibo_hotspot.py:67-87 | an entry raises iff it is not a dict; it adds at most one query, and adds one iff `note or word` is truthy; that query's rank is the position given |
| FetchQueries.GeneratedRaises | fetch_weibo_hotspot.py:67-69 | the loop raises exactly when some entry of the list is not a dict |
| FetchQueries.GeneratedFrom | fetch_weibo_hotspot.py:67-87 | at most one query per entry; every rank lies in 1..len and each query is exactly the one the entry at its rank yields |
| FetchQueries.GeneratedIncreasing | fetch_weibo_hotspot.py:67-78 | ranks strictly increase along the output |
| FetchQueries.GeneratedComplete | fetch_weibo_hotspot.py:69-87 | every entry with a title yields a query carrying its 1-based position |
| FetchQueries.QueryFields | fetch_weibo_hotspot.py:69-84 | a query's title is `note or word` and truthy; heat defaults to 'N/A', category and label_name to ''; search text is title + ' 微博热搜 ' + month; raw_data is the entry unchanged |
| FetchQueries.QueriesBound | fetch_weibo_hotspot.py:62-78 | for a non-negative max_items, at most max_items queries, every rank within 1..max_items, and each query built from the hot-search entry at its rank |
| FetchQueries.GenerateSearchQueries | fetch_weibo_hotspot.py:62-90 | the index loop with `continue` computes exactly the queries the specification function describes, including the raising case |
| Analyze.Cut | analyze_hotspot_with_ai.py:78-93 | `[:500]` of a string or list is a prefix of at most 500 elements and is the identity on short inputs; any other value raises |
| Analyze.FirstPresent | analyze_hotspot_with_ai.py:81-83 | the first key of the fallback list present in the dict; none iff no key is present |
| Analyze.ItemSnippet | analyze_hotspot_with_ai.py:88-92 | a list item contributes only when it is a dict and its `snippet or content or description` is truthy |
| Analyze.Snippet | analyze_hotspot_with_ai.py:68-95 | the snippet is within 500 characters; falsy input gives '暂无搜索结果'; only a dict or a list can make it raise |
| Analyze.SnippetFirst | analyze_hotspot_with_ai.py:76-78 | a truthy `snippet` is returned, cut to 500 |
| Analyze.ContentSecond | analyze_hotspot_with_ai.py:76-78 | without a truthy snippet, a truthy `content` is returned, cut to 500 |
| Analyze.FallbackOrder | analyze_hotspot_with_ai.py:80-83 | otherwise the first present of description/summary/text/body, stringified and cut to 500 |
| Analyze.OnlyFirstThree | analyze_hotspot_with_ai.py:88 | items after the third never change the snippet of a list |
| Analyze.ListRaises | analyze_hotspot_with_ai.py:88-93 | the list case raises iff one of the first three items contributes a non-string piece (the `join` fails) |
| Analyze.CollectPieces | analyze_hotspot_with_ai.py:87-92 | the appending loop over `search_data[:3]` collects exactly the contributing pieces in order |
| Analyze.ExtractSearchSnippet | analyze_hotspot_with_ai.py:68-95 | the method returns the snippet the specification function gives |
| Analyze.ResultOf | analyze_hotspot_with_ai.py:29-43 | a file is loaded iff it parses to a dict; rank is the name's digits, title defaults to '热点#<rank>', content to '' |
| Analyze.SearchResultsSorted | analyze_hotspot_with_ai.py:51 | loaded search results are ordered by rank |
| Analyze.SearchResultsFrom | analyze_hotspot_with_ai.py:19-49 | a result is loaded iff some listed `search_results_*.json` file yields it; failing files are skipped |
| Analyze.CanonicalRank | analyze_hotspot_with_ai.py:34-35 | the name `search_results_<rank:02d>.json` reads back as its rank |
| Analyze.LoadSearchResults | analyze_hotspot_with_ai.py:14-54 | the loader's loop and sort compute exactly the sorted results |
| Analyze.FindQuery | analyze_hotspot_with_ai.py:165-169 | a query that is found has a `rank` equal, as a number, to the result's rank |
| Analyze.FindQueryScan | analyze_hotspot_with_ai.py:165-169 | a found query is the first whose rank matches; none is found iff every query was passed; the scan raises iff a query without `rank` comes before any match |
| Analyze.MatchQuery | analyze_hotspot_with_ai.py:165-169 | the linear search with `break` computes exactly the scan result |
| Analyze.PromptFileInjective | analyze_hotspot_with_ai.py:181 | distinct ranks get distinct `prompt_<rank:02d>.txt` names |
| Analyze.IndexNotPrompt | analyze_hotspot_with_ai.py:181-202 | no prompt file is the index file |
| Analyze.EntryOf | analyze_hotspot_with_ai.py:160-192 | an entry keeps the result's rank and title, names `prompt_<rank:02d>.txt`, has a short snippet as summary, and its hotspot's rank equals the result's rank (matched or fallback) |
| Analyze.BuildEntry | analyze_hotspot_with_ai.py:160-191 | the method builds the entry the specification function gives |
| Analyze.WrittenPrompts | analyze_hotspot_with_ai.py:182-184 | every kept entry's prompt file is written; other files and the directories are unchanged |
| Analyze.WritePromptsAppend | analyze_hotspot_with_ai.py:182-184 | writing one more entry writes exactly its prompt file on top |
| Analyze.KeepStep | analyze_hotspot_with_ai.py:182-197 | an entry is kept iff its prompt file could be opened for writing |
| Analyze.SavedPromptsMeaning | analyze_hotspot_with_ai.py:153-210 | saving raises iff `analysis_prompts` is a file or some entry raises; otherwise at most one entry per result, each built from a result, each prompt file written, and the index holds the kept entries |
| Analyze.WriteEntries | analyze_hotspot_with_ai.py:160-199 | the loop keeps the writable entries and writes their prompt files in order |
| Analyze.SaveAnalysisPrompts | analyze_hotspot_with_ai.py:153-210 | the method returns the kept entries and the file system the specification function gives |
| Analyze.InstructionsOf | analyze_hotspot_with_ai.py:213-250 | the sheet reports the total, lists the first min(n, 10) entries in order, and reports n − 10 remaining iff n > 10 |
| Analyze.CreateAnalysisInstructions | analyze_hotspot_with_ai.py:238-327 | the loop over the first ten writes exactly that sheet |
| Analyze.ListPrompts | analyze_hotspot_with_ai.py:238-247 | the listing loop yields one entry per prompt, in order |
| Analyze.RunScript | analyze_hotspot_with_ai.py:332-376 | exit 1 without queries, without search results, or with no prompt saved; a crash when saving raises; otherwise exit 0 with prompts, index and sheet written |
| Aggregator.Glob | combine_results.py:18 | the visited paths are exactly `analysis_results/` + each listed `result_*.json` name |
| Aggregator.RankFromResultPath | combine_results.py:27-29 | a path `analysis_results/result_<digits>.json` yields the digits' value |
| Aggregator.WithSearchTitle | combine_results.py:34-40 | no search-results file leaves the record as it is; otherwise only a title can be added and every existing field is kept |
| Aggregator.SearchTitleStep | combine_results.py:34-40 | the in-place title step yields the record of the specification function, or raises where it does |
| Aggregator.ApplyQuery | combine_results.py:47-50 | a matched query sets heat (default 0) over any existing heat and sets the title only when absent; every other field is kept |
| Aggregator.WithQueryFields | combine_results.py:42-53 | the query step adds at most heat and title, and keeps every field other than heat |
| Aggregator.QueryStep | combine_results.py:42-53 | the in-place query step yields the record of the specification function |
| Aggregator.ScanQueriesFirstMatch | combine_results.py:46-51 | the scan result is the first query with equal rank, or none, or raising, and it is the only result with that meaning |
| Aggregator.FindQuery | combine_results.py:46-51 | the query loop with `break` returns the first match (or none, or raising) |
| Aggregator.ProcessFile | combine_results.py:22-61 | one iteration of the file loop computes the file's outcome: skipped, unranked, or ranked with its record |
| Aggregator.FieldsSurvive | combine_results.py:26-50 | every field of the loaded record except heat survives unchanged; only rank, title and heat can be added |
| Aggregator.RankResolution | combine_results.py:26-59 | a record is unranked iff its (recovered) rank is falsy, so rank 0 counts as no rank; a ranked record is keyed by its rank; a truthy non-integer rank is skipped |
| Aggregator.TitleBackfill | combine_results.py:35-50 | an existing title is never overwritten; otherwise the same-rank search file's title, else the matching query's title, else none |
| Aggregator.HeatFromFirstQuery | combine_results.py:43-51 | with a matching query heat is that query's heat (default 0), overwriting; without one heat is untouched |
| Aggregator.UnreadableSkipped | combine_results.py:36-61 | a file that fails to load, or whose existing search-results file fails to load, is skipped |
| Aggregator.LastWriteWins | combine_results.py:56-57 | a rank is in the dictionary iff some file is ranked with it, and its record is the one from the last such file, whole |
| Aggregator.MergedRecordsCarryRank | combine_results.py:33-57 | every stored record carries a truthy rank equal to its key |
| Aggregator.ListingFromValues | combine_results.py:64-67 | sorting the dictionary's values by rank gives one record per key, strictly increasing by rank |
| Aggregator.MergeStep | combine_results.py:56-59 | one more file changes the dictionary only when it is ranked, by storing its record under its rank |
| Aggregator.Combine | combine_results.py:7-77 | without `analysis_results` the script returns with nothing written; when that path is a plain file no result file is found; when the output path is a directory it crashes with nothing written; otherwise the output file holds the rank listing of the merged dictionary |
| Aggregator.LatestPathWins | combine_results.py:21-57 | a record in the output comes from a file no later path of which is ranked the same, in lexicographic path order |
| Aggregator.UnrankedDropped | combine_results.py:58-64 | every output record has a truthy rank: unranked records never reach the output |
| Aggregator.OutcomeIgnoresOutput | combine_results.py:71-73 | a file's outcome does not depend on the output file |
| Aggregator.RerunIgnoresOutput | combine_results.py:13-73 | writing the output file does not change what a second run merges |
| Scores.TierOf | generate_apple_style_report.py:31-38 | a score is in exactly one tier: ≥ 80, 60..79, or < 60 |
| Scores.TierMonotone | generate_apple_style_report.py:31-38 | the tier is monotone in the score |
| Scores.RecordScore | generate_apple_style_report.py:44-46 | reading `r['total_score']` succeeds iff the record is a dict with an integer total_score |
| Scores.RecordScores | generate_apple_style_report.py:44-46 | the scores of a list are read element by element, failing iff one fails |
| Scores.CountsAreSetSizes | generate_apple_style_report.py:44-45 | the high and medium counts count disjoint sets of records |
| Scores.HighMediumWithinTotal | generate_apple_style_report.py:44-45 | high + medium ≤ total |
| Scores.CalculateStats | generate_apple_style_report.py:41-53 | total is the length; the counts are the sizes of the ≥ 80 and 60..79 sets; the average is the sum over the total, and 0 for an empty list |
| Scores.AverageBounds | generate_apple_style_report.py:46 | the exact average lies between the smallest and largest bound of the scores |
| Scores.StatsExample | generate_apple_style_report.py:41-53 | scores 90 and 50 give two topics, one high, none medium, and an average of 70 |
| AppleReport.BadgeClass | generate_apple_style_report.py:31-38 | score-excellent iff ≥ 80, score-good iff 60..79, score-fair iff < 60 |
| AppleReport.LoadFillsTotalScore | generate_apple_style_report.py:16-24 | a loaded list keeps its length and each record is filled |
| AppleReport.EmptyOrMissingIsFalsy | generate_apple_style_report.py:16-28 | a missing file, an unreadable file and an empty list all load as a falsy value, so `main` exits 1 |
| AppleReport.LoadAnalysisResults | generate_apple_style_report.py:13-28 | the loader's loop computes the loaded value |
| AppleReport.BlockOf | generate_apple_style_report.py:64-84 | a product block iff has_idea and product are truthy, with defaults '未命名产品'/'N/A'/'N/A'/'暂无描述'; otherwise a no-idea block with reason, default '总分未达60分阈值' |
| AppleReport.RowContents | generate_apple_style_report.py:60-120 | a row's data-score is the record's total_score, its badge the tier class, its rank, title and block the record's |
| AppleReport.HeatMustBeInteger | generate_apple_style_report.py:92 | a record without integer heat (the 'N/A' default included) makes rendering raise; otherwise the heat text is the heat with thousands separators |
| AppleReport.GenerateTableRows | generate_apple_style_report.py:56-122 | one row per record, in input order, or raising |
| AppleReport.RunScript | generate_apple_style_report.py:762-819 | exit 1 on a falsy load; crash when rows or stats raise; otherwise the page is written under `output/` (exit 0) or the write fails (exit 1) |
| TableSort.SortToggle.constructor | generate_apple_style_report.py:707-710 | the table starts in its original order with the sort flag set |
| TableSort.SortToggle.Click | generate_apple_style_report.py:712-739 | with the flag set, the rows are stably sorted by non-increasing score and the flag clears; otherwise the original order is restored and the flag set |
| TableSort.SortToggle.SortedState | generate_apple_style_report.py:715-723 | in the sorted state the rows are a permutation of the original rows, ordered by non-increasing score |
| TableSort.SortToggle.ClickTwice | generate_apple_style_report.py:712-739 | two clicks leave flag and rows as they were |
| HtmlReport.BadgeClass | generate_html_report.py:597-604 | score-high iff ≥ 80, score-medium iff 60..79, score-low iff < 60 |
| HtmlReport.RecordDefaults | generate_html_report.py:40-57 | the stored rank is ignored; a field missing from the file takes its default ('热点#<rank>', 0, '', False, None, '暂无事件脉络'); rank comes from the name |
| HtmlReport.SampleData | generate_html_report.py:72-125 | the built-in sample has ranks 1, 2, 3 and scores 88, 70, 30 |
| HtmlReport.CollectedStep | generate_html_report.py:33-59 | each file adds its record iff it loads as a dict |
| HtmlReport.CollectRecords | generate_html_report.py:33-64 | the loop collects exactly the loadable records in file order |
| HtmlReport.AllRanked | generate_html_report.py:34 | the sort key succeeds iff every listed name contains `result_` followed by digits |
| HtmlReport.LoadAnalysisResults | generate_html_report.py:14-69 | the loader returns the sorted records, the sample when no file is listed, or raises |
| HtmlReport.LoadedSortedByRank | generate_html_report.py:66 | loaded records are ordered by rank |
| HtmlReport.EveryLoadableFileKept | generate_html_report.py:33-64 | loaded records come one per loadable file, with no deduplication |
| HtmlReport.CollectedSources | generate_html_report.py:33-64 | the collected records come from exactly the loadable files, in the sorted file order |
| HtmlReport.BlockOf | generate_html_report.py:630-641 | an idea block iff has_idea and product are truthy (product a dict), with the same defaults; otherwise the fixed no-idea block |
| HtmlReport.RowContents | generate_html_report.py:626-674 | a row shows the record's rank, title and total score with its tier badge; the idea block iff has_idea and product are truthy |
| HtmlReport.GenerateTableRows | generate_html_report.py:622-676 | one row per record in order, or raising |
| HtmlReport.TotalScores | generate_html_report.py:610-612 | the scores are read element by element, failing iff one is not an integer |
| HtmlReport.SaveHtmlReport | generate_html_report.py:679-698 | the method computes the save result and file system of the specification function |
| HtmlReport.SaveKeepsPrevious | generate_html_report.py:683-698 | on success the target holds the new content, an existing target moved to `<name>.<timestamp>.backup`, and every other file kept; on failure nothing changes |
| HtmlReport.GenerateJsonReport | generate_html_report.py:701-724 | the envelope is written unless the target is a directory, which returns False |
| HtmlReport.EnvelopeReadBack | generate_html_report.py:704-718 | the written file reads back with total_topics = len(results), min_score_for_idea = 60 and the results in order |
| HtmlReport.RunScript | generate_html_report.py:727-777 | a crash when loading raises; exit 1 on no results; exit 0 iff rows and stats can be computed, with the HTML saved and the JSON written |
| EnhancedReport.LoadData | generate_final_enhanced_report.py:12-20 | loading succeeds iff both files parse |
| EnhancedReport.CalculateStats | generate_final_enhanced_report.py:33-47 | the stats can be computed iff every record has an integer total_score and a has_idea key; the base stats are the shared ones |
| EnhancedReport.QualifiedIsIdeaCount | generate_final_enhanced_report.py:38 | qualified_count is the number of records whose has_idea is truthy |
| EnhancedReport.QualifiedAtMost | generate_final_enhanced_report.py:38 | qualified_count ≤ total |
| EnhancedReport.StatsMeaning | generate_final_enhanced_report.py:33-47 | deep_dive_count equals high_score_count, the dimension card shows 3 × that, and qualified ≤ total |
| EnhancedReport.DeepMapLastWins | generate_final_enhanced_report.py:53 | the map is built iff every item has a hashable topic title; a title is a key iff some item has it, and maps to the last such item |
| EnhancedReport.Dimensions | generate_final_enhanced_report.py:85-111 | one block per dimension in list order, failing iff one fails |
| EnhancedReport.RowDeepParts | generate_final_enhanced_report.py:55-158 | the row is the Apple-style row plus a deep badge iff the title is in the map, and a deep section iff the row has a product block and the title is in the map |
| EnhancedReport.GenerateTableRows | generate_final_enhanced_report.py:50-160 | the rows of the records under the deep-dive map, raising when the map raises |
| EnhancedReport.RunScript | generate_final_enhanced_report.py:467-524 | a crash when loading or computing raises; otherwise the page is written under `output/` (exit 0) or the write fails (exit 1) |
| ArchiveIndex.Basename | generate_index_pages.py:19 | the basename has no '/' and ends the path |
| ArchiveIndex.PyInt | generate_index_pages.py:24-28 | `int()` succeeds iff the text is digits with an optional sign |
| ArchiveIndex.TimeLabel | generate_index_pages.py:45-52 | 早报 iff 6 ≤ h < 12, 午报 iff 12 ≤ h < 18, 晚报 otherwise |
| ArchiveIndex.LeadingFields | generate_index_pages.py:23-28 | the first five parts are read iff there are at least five and each is an integer |
| ArchiveIndex.ParseReportFilename | generate_index_pages.py:13-42 | a parsed report is a valid minute-precision datetime, with its basename and the strings derived from it |
| ArchiveIndex.ParseReportName | generate_index_pages.py:13-42 | the name `YYYY-MM-DD-HH-MM.html` of a valid datetime parses back to that datetime |
| ArchiveIndex.DateStrOrder | generate_index_pages.py:231 | for four-digit years, the day strings order exactly as the days |
| ArchiveIndex.ParsedReportsFrom | generate_index_pages.py:64-71 | a report is listed iff some non-index path parses to it |
| ArchiveIndex.CollectReports | generate_index_pages.py:67-71 | the loop keeps exactly the names that parse |
| ArchiveIndex.NewestFirstOrder | generate_index_pages.py:74 | the sorted reports are a permutation, newest first |
| ArchiveIndex.ListedValid | generate_index_pages.py:64-74 | the sorted reports are the parsed ones, each a valid date-time, and newest first |
| Clock.OrdinalOrder | generate_index_pages.py:74 | the integer sort key orders date-times chronologically, and equal keys mean equal date-times |
| ArchiveIndex.DistinctDates | generate_index_pages.py:77-82 | the day keys are exactly the reports' days, each once |
| ArchiveIndex.GroupByDate | generate_index_pages.py:77-82 | each day maps to its reports in list order, and only listed days are keys |
| ArchiveIndex.DescendingDatesOrder | generate_index_pages.py:231 | the keys are a permutation in strictly descending string order |
| ArchiveIndex.GroupContents | generate_index_pages.py:230-249 | each group is non-empty and holds its day's reports in order |
| ArchiveIndex.GroupsDescending | generate_index_pages.py:231 | groups come in strictly descending day-string order |
| ArchiveIndex.ReportGrouped | generate_index_pages.py:77-82 | every report is in the group of its day |
| ArchiveIndex.NoDatesNoReports | generate_index_pages.py:230-259 | the empty state is shown iff there are no reports |
| ArchiveIndex.ArchiveNewestDayFirst | generate_index_pages.py:231 | for four-digit years, every report of an earlier group is on a later day than every report of a later group |
| ArchiveIndex.BuildArchive | generate_index_pages.py:77-259 | grouping with the dictionary and emitting the sorted keys gives exactly the archive page |
| ArchiveIndex.HomepageOf | generate_index_pages.py:281-492 | the welcome state iff there are no reports; otherwise one entry per report with the first selected |
| ArchiveIndex.HomepageSelectsNewest | generate_index_pages.py:492 | the homepage selects a report no older than any listed report, and lists every one |
| ArchiveIndex.RunScript | generate_index_pages.py:536-554 | the archive directory is created, then the archive index and the homepage are written; a failure to create or write crashes |
| Text.Format02d | analyze_hotspot_with_ai.py:181 | `{:02d}` of a non-negative number is at least two digits that read back as the number |
| Text.GroupedDigits | generate_apple_style_report.py:92 | the `:,` text with the commas removed is the number's digits |
| Text.SplitJoin | generate_index_pages.py:21 | joining the parts of `split('-')` gives back the text |
| Text.JoinSplit | generate_index_pages.py:21 | splitting a join of separator-free parts gives back the parts |
| Text.DigitsOrder | generate_index_pages.py:231 | equal-length digit strings order as their values |
| Text.SortStringsSorted | combine_results.py:21 | `sorted()` of strings gives code-point order |
| Sorting.SortBySorted | combine_results.py:67 | `sort(key=…)` orders by key |
| Sorting.SortByStable | combine_results.py:67 | `sort(key=…)` keeps the input order of equal keys |
| Sorting.SliceTo | fetch_weibo_hotspot.py:67 | `s[:n]` is a prefix, of length min(n, len) for n ≥ 0 and len + n (at least 0) for n < 0 |
| PyJson.Or | fetch_weibo_hotspot.py:69 | `a or b` is truthy iff either is, and is `a` when `a` is truthy |
| Files.Write | combine_results.py:72-73 | writing sets one file and keeps every other file and the directories |

## Left out

- Network access, the agent SDK scripts, the subprocess runners and the guide generators are not part of this model. That covers `fetch_weibo_hotspot`, `save_queries`, `display_top_hotspots`, `run_*.py`, `test_agent.py`, `search_hotspot_details.py`, `auto_run_enhanced.py` and `generate_analysis_prompts.py`.
- Console output (`print`) is not modelled.
- HTML, CSS, prompt and instruction texts, and the smooth-scroll script, are not modelled. Rows, blocks, pages and sheets are values, and the text is a render parameter.
- Float output is not modelled: the `:.1f` average, the HTML report's bar percentages and `repr` of floats (the `show` parameter). The average is the exact quotient, as a `real`, with no floating-point rounding.
- The clock is a parameter and is read once per call. `FetchQueries.GenerateSearchQueries` reads it once rather than once per item, as the source does. `Clock.DateTime` has no microseconds, so `generated_at` timestamps are modelled as if the clock stood on a whole second.
- `Scores.RecordScore`: a float `total_score` is treated as raising, though Python would compare it. Scores are modelled as integers.
- `AppleReport.HeatMustBeInteger`: a float heat is treated as raising, though Python's `:,` formats floats too.
- `Aggregator.RankFromPath`, `HtmlReport.FileRank` and `Analyze.NameRank`: the regular expressions' `\d` matches ASCII digits only. Python's `\d` on `str` matches every Unicode decimal digit and `int()` reads it, so a name such as `result_٣.json` has rank 3 in the scripts and no rank here.
- `ArchiveIndex.PyInt`: accepts ASCII digits with an optional sign only. Python's `int()` also accepts surrounding whitespace, underscores and other Unicode digits.
- `EnhancedReport.DeepMapLastWins`: string, integer, boolean, null and float titles are keys, with `True` merged into `1` and a whole-number float into its integer, as Python's hashing does; list or dict titles raise, as in Python. Float keys that are not whole numbers are compared as the modelled reals are, exactly.
- `HtmlReport.SaveHtmlReport`: the backup is a file move within the map. Renaming a directory onto the backup name is not modelled (that case fails).
- `Analyze.SaveAnalysisPrompts`: when it raises part way, the files already written are not described.
- Directory listings are parameters. The order `glob` and `os.listdir` return does not matter to the results except where the source sorts, and even there it shows through ties in the stable sorts: two report names that parse to the same minute, or two result files with the same rank, keep their listing order.
- A partially written file after a failed `json.dump` is not modelled: a write either happens whole or not at all.
- The `%Y` year is formatted without padding, which matches Python only for years from 1000 on.
- The client-side `change` handler of the homepage's select box, which loads another report into the frame, is not modelled.
