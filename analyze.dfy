/**
 * The preparation step of the AI analysis (`analyze_hotspot_with_ai.py`).
 * Search-result files are loaded and ordered by the rank in their names.
 * Each result is matched with its hotspot query and summarised, and one
 * prompt file is written per result. An instruction sheet then lists the
 * first ten prompts. The prompt and instruction texts are templates and
 * come in as `render` parameters; the clock is a parameter too.
 */
module Analyze {
  import opened Wrappers
  import opened PyJson
  import opened Text
  import opened Sorting
  import opened Files
  import Clock

  // ----- extract_search_snippet -----

  const SnippetLimit := 500
  const NoResults := "暂无搜索结果"
  const LittleContent := "搜索结果内容较少"
  const FallbackKeys := ["description", "summary", "text", "body"]
  const Separator := " | "
  /** Only this many list items are looked at. */
  const ListItems := 3

  /** A summary within the limit: a string, or a list that `[:500]` cut. */
  predicate Short(j: Json)
  {
    (j.Str? && |j.s| <= SnippetLimit) || (j.Arr? && |j.items| <= SnippetLimit)
  }

  /** `value[:500]`: strings and lists keep their first 500 positions; any other value raises. */
  function Cut(j: Json): (r: Option<Json>)
    ensures r.Some? <==> j.Str? || j.Arr?
    ensures r.Some? ==> Short(r.value)
    ensures j.Str? ==> r.value.Str? && |r.value.s| <= |j.s| && r.value.s == j.s[..|r.value.s|] && (|j.s| <= SnippetLimit ==> r.value == j)
    ensures j.Arr? ==> r.value.Arr? && |r.value.items| <= |j.items| && r.value.items == j.items[..|r.value.items|] && (|j.items| <= SnippetLimit ==> r.value == j)
  {
    match j
    case Str(s) => Some(Str(SliceTo(s, SnippetLimit)))
    case Arr(a) => Some(Arr(SliceTo(a, SnippetLimit)))
    case _ => None
  }

  /** The first of `keys` present in `d`. */
  function FirstPresent(d: Dict, keys: seq<string>): (r: Option<string>)
    ensures r.None? <==> forall i :: 0 <= i < |keys| ==> keys[i] !in d
    ensures r.Some? ==> r.value in d
    ensures r.Some? ==> exists i :: 0 <= i < |keys| && keys[i] == r.value && forall j :: 0 <= j < i ==> keys[j] !in d
    decreases |keys|
  {
    if keys == [] then None
    else if keys[0] in d then Some(keys[0])
    else
      var r := FirstPresent(d, keys[1..]);
      assert r.Some? ==> exists i :: 0 <= i < |keys[1..]| && keys[1..][i] == r.value && forall j :: 0 <= j < i ==> keys[1..][j] !in d;
      assert r.Some? ==> exists i :: 1 <= i < |keys| && keys[i] == r.value && forall j :: 0 <= j < i ==> keys[j] !in d;
      r
  }

  /** The summary of a dict: `snippet`, else `content`, cut; else the first fallback key, stringified and cut. */
  function DictSnippet(d: Dict, show: Json -> string): Option<Json>
  {
    var snippet := Or(GetOr(d, "snippet", Str("")), GetOr(d, "content", Str("")));
    if Truthy(snippet) then Cut(snippet)
    else
      match FirstPresent(d, FallbackKeys)
      case Some(k) => Some(Str(SliceTo(PyStr(d[k], show), SnippetLimit)))
      case None => Some(Str(LittleContent))
  }

  /** What one list item adds: a dict's `snippet`, else `content`, else `description`, when that is truthy. */
  function ItemSnippet(item: Json): (r: Option<Json>)
    ensures r.Some? ==> item.Obj? && Truthy(r.value)
  {
    if item.Obj? then
      var d := item.fields;
      var s := Or(Or(GetOr(d, "snippet", Str("")), GetOr(d, "content", Str(""))), GetOr(d, "description", Str("")));
      if Truthy(s) then Some(s) else None
    else None
  }

  /** A piece `str.join` accepts; any other value makes the join raise. */
  function AsText(j: Json): Option<string>
  {
    if j.Str? then Some(j.s) else None
  }

  /** The pieces the first three items contribute, in order. */
  function ListPieces(items: seq<Json>): seq<Json>
  {
    Collect(SliceTo(items, ListItems), ItemSnippet)
  }

  /** `' | '.join(pieces)[:500]`. */
  function ListSnippet(items: seq<Json>): Option<Json>
  {
    match Traverse(ListPieces(items), AsText)
    case Some(parts) => Some(Str(SliceTo(Join(parts, Separator), SnippetLimit)))
    case None => None
  }

  /** `extract_search_snippet`; `None` where it raises. */
  function Snippet(data: Json, show: Json -> string): (r: Option<Json>)
    ensures r.Some? ==> Short(r.value)
    ensures !Truthy(data) ==> r == Some(Str(NoResults))
    ensures r.None? ==> data.Obj? || data.Arr?
  {
    if !Truthy(data) then Some(Str(NoResults))
    else
      match data
      case Obj(d) => DictSnippet(d, show)
      case Arr(items) => ListSnippet(items)
      case _ => Some(Str(LittleContent))
  }

  /** A dict's truthy `snippet` is the summary, cut to the limit. */
  lemma SnippetFirst(d: Dict, show: Json -> string)
    requires "snippet" in d && Truthy(d["snippet"])
    ensures Snippet(Obj(d), show) == Cut(d["snippet"])
  {
  }

  /** Without a truthy `snippet`, a truthy `content` is the summary. */
  lemma ContentSecond(d: Dict, show: Json -> string)
    requires !("snippet" in d && Truthy(d["snippet"]))
    requires "content" in d && Truthy(d["content"])
    ensures Snippet(Obj(d), show) == Cut(d["content"])
  {
  }

  /** Otherwise the first fallback key present decides, and a dict with none of them is reported as thin. */
  lemma FallbackOrder(d: Dict, show: Json -> string, i: int)
    requires d != map[]
    requires !("snippet" in d && Truthy(d["snippet"])) && !("content" in d && Truthy(d["content"]))
    requires 0 <= i < |FallbackKeys| && FallbackKeys[i] in d
    requires forall j :: 0 <= j < i ==> FallbackKeys[j] !in d
    ensures Snippet(Obj(d), show) == Some(Str(SliceTo(PyStr(d[FallbackKeys[i]], show), SnippetLimit)))
  {
    var k := FirstPresent(d, FallbackKeys);
    var i' :| 0 <= i' < |FallbackKeys| && FallbackKeys[i'] == k.value && forall j :: 0 <= j < i' ==> FallbackKeys[j] !in d;
  }

  /** Items after the third never change the summary of a list. */
  lemma OnlyFirstThree(items: seq<Json>, more: seq<Json>, show: Json -> string)
    requires |items| >= ListItems
    ensures Snippet(Arr(items + more), show) == Snippet(Arr(items), show)
  {
    assert SliceTo(items + more, ListItems) == SliceTo(items, ListItems);
  }

  /** A list's summary raises exactly when one of its first three items contributes a piece that is not a string. */
  lemma ListRaises(items: seq<Json>)
    ensures ListSnippet(items).None? <==>
      exists i :: 0 <= i < |items| && i < ListItems && ItemSnippet(items[i]).Some? && !ItemSnippet(items[i]).value.Str?
  {
    if ListSnippet(items).None? {
      ListRaisesAt(items);
    }
    if exists i :: 0 <= i < |items| && i < ListItems && ItemSnippet(items[i]).Some? && !ItemSnippet(items[i]).value.Str? {
      var i :| 0 <= i < |items| && i < ListItems && ItemSnippet(items[i]).Some? && !ItemSnippet(items[i]).value.Str?;
      ListRaisesFrom(items, i);
    }
  }

  /** A failing summary names the item whose piece is not a string. */
  lemma ListRaisesAt(items: seq<Json>)
    requires ListSnippet(items).None?
    ensures exists i :: 0 <= i < |items| && i < ListItems && ItemSnippet(items[i]).Some? && !ItemSnippet(items[i]).value.Str?
  {
    var s := SliceTo(items, ListItems);
    var pieces := ListPieces(items);
    var k :| 0 <= k < |pieces| && AsText(pieces[k]).None?;
    assert pieces[k] in pieces;
    CollectFrom(s, ItemSnippet, pieces[k]);
    var i :| 0 <= i < |s| && ItemSnippet(s[i]) == Some(pieces[k]);
    assert s[i] == items[i];
  }

  /** One such item among the first three makes the summary fail. */
  lemma ListRaisesFrom(items: seq<Json>, i: int)
    requires 0 <= i < |items| && i < ListItems && ItemSnippet(items[i]).Some? && !ItemSnippet(items[i]).value.Str?
    ensures ListSnippet(items).None?
  {
    var s := SliceTo(items, ListItems);
    var pieces := ListPieces(items);
    assert s[i] == items[i];
    CollectFrom(s, ItemSnippet, ItemSnippet(items[i]).value);
    var k :| 0 <= k < |pieces| && pieces[k] == ItemSnippet(items[i]).value;
    assert AsText(pieces[k]).None?;
  }

  /** The loop over `search_data[:3]` that gathers the pieces. */
  method CollectPieces(items: seq<Json>) returns (pieces: seq<Json>)
    ensures pieces == ListPieces(items)
  {
    var first := SliceTo(items, ListItems);
    pieces := [];
    for i := 0 to |first|
      invariant pieces == Collect(first[..i], ItemSnippet)
    {
      CollectPrefix(first, ItemSnippet, i);
      var item := first[i];
      if item.Obj? {
        var d := item.fields;
        var s := Or(Or(GetOr(d, "snippet", Str("")), GetOr(d, "content", Str(""))), GetOr(d, "description", Str("")));
        if Truthy(s) {
          pieces := pieces + [s];
        }
      }
    }
    assert first[..|first|] == first;
  }

  /** `extract_search_snippet`, with its loop. */
  method ExtractSearchSnippet(data: Json, show: Json -> string) returns (r: Option<Json>)
    ensures r == Snippet(data, show)
  {
    if !Truthy(data) {
      return Some(Str(NoResults));
    }
    match data
    case Obj(d) =>
      r := DictSnippet(d, show);
    case Arr(items) =>
      var pieces := CollectPieces(items);
      var parts := Traverse(pieces, AsText);
      if parts.None? {
        return None;
      }
      r := Some(Str(SliceTo(Join(parts.value, Separator), SnippetLimit)));
    case _ =>
      r := Some(Str(LittleContent));
  }

  // ----- load_search_results -----

  const ResultPrefix := "search_results_"

  /** The names the loader picks from the directory listing. */
  predicate IsResultFile(name: string)
  {
    StartsWith(name, ResultPrefix) && EndsWith(name, ".json")
  }

  /** `re.search(r'search_results_(\d+)\.json', name)`: the captured number, or 0. */
  function NameRank(name: string): nat
  {
    match SearchDigits(name, ResultPrefix, Literal(".json"))
    case Some(n) => n
    case None => 0
  }

  /** A loaded search result. */
  datatype SearchResult = SearchResult(rank: nat, filename: string, data: Dict, title: Json, content: Json)

  /** The result for one file; `None` when the file does not load or is not a dict (the loader skips it). */
  function ResultOf(fs: FileSystem, name: string): (r: Option<SearchResult>)
    ensures r.Some? <==> LoadJson(fs, name).Some? && LoadJson(fs, name).value.Obj?
    ensures r.Some? ==> r.value.filename == name && r.value.rank == NameRank(name) && LoadJson(fs, name) == Some(Obj(r.value.data))
    ensures r.Some? && "title" !in r.value.data ==> r.value.title == Str("热点#" + Decimal(r.value.rank))
    ensures r.Some? && "content" !in r.value.data ==> r.value.content == Str("")
  {
    match LoadJson(fs, name)
    case Some(Obj(d)) =>
      var rank := NameRank(name);
      Some(SearchResult(rank, name, d, GetOr(d, "title", Str("热点#" + Decimal(rank))), GetOr(d, "content", Str(""))))
    case _ => None
  }

  function LoadResult(fs: FileSystem): string -> Option<SearchResult>
  {
    name => ResultOf(fs, name)
  }

  function ResultRank(r: SearchResult): int
  {
    r.rank
  }

  /** The result files in `sorted()` order. */
  function ResultFiles(listing: seq<string>): seq<string>
  {
    SortStrings(Filter(listing, IsResultFile))
  }

  /** `load_search_results`: every loadable result file, sorted by rank (stably, so equal ranks keep name order). */
  function SearchResults(fs: FileSystem, listing: seq<string>): seq<SearchResult>
  {
    SortBy(Collect(ResultFiles(listing), LoadResult(fs)), ResultRank)
  }

  /** The loaded results are in ascending rank order. */
  lemma SearchResultsSorted(fs: FileSystem, listing: seq<string>)
    ensures SortedBy(SearchResults(fs, listing), ResultRank)
  {
    SortBySorted(Collect(ResultFiles(listing), LoadResult(fs)), ResultRank);
  }

  /** A result is loaded exactly when some listed result file loads to it. */
  lemma SearchResultsFrom(fs: FileSystem, listing: seq<string>, r: SearchResult)
    ensures r in SearchResults(fs, listing) <==>
      exists i :: 0 <= i < |listing| && IsResultFile(listing[i]) && ResultOf(fs, listing[i]) == Some(r)
  {
    var names := Filter(listing, IsResultFile);
    var files := ResultFiles(listing);
    var collected := Collect(files, LoadResult(fs));
    assert r in SearchResults(fs, listing) <==> r in collected by {
      assert multiset(SearchResults(fs, listing)) == multiset(collected);
      assert r in multiset(collected) <==> r in collected;
    }
    CollectFrom(files, LoadResult(fs), r);
    if r in collected {
      var j :| 0 <= j < |files| && LoadResult(fs)(files[j]) == Some(r);
      assert files[j] in multiset(names);
      assert files[j] in names;
      var i :| 0 <= i < |listing| && listing[i] == files[j];
    }
    if exists i :: 0 <= i < |listing| && IsResultFile(listing[i]) && ResultOf(fs, listing[i]) == Some(r) {
      var i :| 0 <= i < |listing| && IsResultFile(listing[i]) && ResultOf(fs, listing[i]) == Some(r);
      FilterKeeps(listing, IsResultFile, i);
      assert listing[i] in multiset(files);
      var j :| 0 <= j < |files| && files[j] == listing[i];
      assert LoadResult(fs)(files[j]) == Some(r);
    }
  }

  /** A file named `search_results_NN.json` gets rank NN. */
  lemma CanonicalRank(n: nat)
    ensures NameRank(ResultPrefix + Format02d(n) + ".json") == n
  {
    var digits := Format02d(n);
    var s := ResultPrefix + digits + ".json";
    var suffix := Literal(".json");
    var at := |ResultPrefix| + |digits|;
    assert s[..|ResultPrefix|] == ResultPrefix;
    assert s[|ResultPrefix|..at] == digits;
    assert s[at..] == ".json";
    assert PatAt(s, at, suffix) by {
      forall k | 0 <= k < |suffix|
        ensures s[at + k] == suffix[k].c
      {
        assert s[at + k] == s[at..][k];
      }
    }
    assert s[at] == '.';
    MatchAtDigits(s, 0, ResultPrefix, digits, suffix);
  }

  /** `load_search_results`, with its loop. */
  method LoadSearchResults(fs: FileSystem, listing: seq<string>) returns (results: seq<SearchResult>)
    ensures results == SearchResults(fs, listing)
  {
    var names := Filter(listing, IsResultFile);
    if names == [] {
      return [];
    }
    var ordered := SortStrings(names);
    var acc: seq<SearchResult> := [];
    for i := 0 to |ordered|
      invariant acc == Collect(ordered[..i], LoadResult(fs))
    {
      CollectPrefix(ordered, LoadResult(fs), i);
      var data := LoadJson(fs, ordered[i]);
      if data.Some? && data.value.Obj? {
        var d := data.value.fields;
        var rank := NameRank(ordered[i]);
        acc := acc + [SearchResult(rank, ordered[i], d, GetOr(d, "title", Str("热点#" + Decimal(rank))), GetOr(d, "content", Str("")))];
      }
    }
    assert ordered[..|ordered|] == ordered;
    results := SortBy(acc, ResultRank);
  }

  // ----- save_analysis_prompts: query matching -----

  /** `q['rank']` does not raise: `q` is a dict holding a `rank`. */
  predicate Ranked(q: Json)
  {
    q.Obj? && "rank" in q.fields
  }

  /** `q['rank'] == rank`, numbers comparing by value. */
  predicate MatchesRank(q: Json, rank: int)
  {
    Ranked(q) && AsNumber(q.fields["rank"]) == Some(rank as real)
  }

  /**
   * The scan `for q in hotspot_queries: if q['rank'] == rank: break`:
   * `Some(Some(q))` for the query it stops at, `Some(None)` when none
   * matches, and `None` where it raises.
   */
  function FindQuery(queries: seq<Json>, rank: int): (r: Option<Option<Dict>>)
    ensures r.Some? && r.value.Some? ==> "rank" in r.value.value && AsNumber(r.value.value["rank"]) == Some(rank as real)
    decreases |queries|
  {
    if queries == [] then Some(None)
    else if !Ranked(queries[0]) then None
    else if MatchesRank(queries[0], rank) then Some(Some(queries[0].fields))
    else FindQuery(queries[1..], rank)
  }

  /** Every query before position `i` is a dict with a different rank. */
  predicate Passed(queries: seq<Json>, rank: int, i: int)
    requires 0 <= i <= |queries|
  {
    forall j :: 0 <= j < i ==> Ranked(queries[j]) && !MatchesRank(queries[j], rank)
  }

  /**
   * The scan stops at the first matching query, finds nothing when every
   * query is a dict with another rank, and raises at the first query that
   * is not a dict with a `rank`.
   */
  lemma {:induction false} FindQueryScan(queries: seq<Json>, rank: int)
    ensures forall d :: FindQuery(queries, rank) == Some(Some(d)) ==>
      exists i :: 0 <= i < |queries| && queries[i] == Obj(d) && MatchesRank(queries[i], rank) && Passed(queries, rank, i)
    ensures FindQuery(queries, rank) == Some(None) <==> Passed(queries, rank, |queries|)
    ensures FindQuery(queries, rank).None? <==>
      exists i :: 0 <= i < |queries| && !Ranked(queries[i]) && Passed(queries, rank, i)
    decreases |queries|
  {
    if queries != [] {
      var t := queries[1..];
      FindQueryScan(t, rank);
      assert forall j :: 0 <= j < |t| ==> t[j] == queries[j + 1];
      if !Ranked(queries[0]) {
        assert Passed(queries, rank, 0);
        assert !Passed(queries, rank, |queries|);
      } else if MatchesRank(queries[0], rank) {
        assert Passed(queries, rank, 0);
        assert !Passed(queries, rank, |queries|);
        forall i | 0 < i <= |queries|
          ensures !Passed(queries, rank, i)
        {
          assert MatchesRank(queries[0], rank);
        }
      } else {
        forall i | 0 <= i <= |t|
          ensures Passed(t, rank, i) <==> Passed(queries, rank, i + 1)
        {
          if Passed(queries, rank, i + 1) {
            forall j | 0 <= j < i
              ensures Ranked(t[j]) && !MatchesRank(t[j], rank)
            {
              assert t[j] == queries[j + 1];
            }
          }
          if Passed(t, rank, i) {
            forall j | 0 <= j < i + 1
              ensures Ranked(queries[j]) && !MatchesRank(queries[j], rank)
            {
              if j > 0 {
                assert queries[j] == t[j - 1];
              }
            }
          }
        }
        assert |t| + 1 == |queries|;
        if FindQuery(queries, rank).None? {
          var i :| 0 <= i < |t| && !Ranked(t[i]) && Passed(t, rank, i);
          assert !Ranked(queries[i + 1]) && Passed(queries, rank, i + 1);
        }
        if exists i :: 0 <= i < |queries| && !Ranked(queries[i]) && Passed(queries, rank, i) {
          var i :| 0 <= i < |queries| && !Ranked(queries[i]) && Passed(queries, rank, i);
          assert i > 0;
          assert !Ranked(t[i - 1]) && Passed(t, rank, i - 1);
        }
        forall d | FindQuery(queries, rank) == Some(Some(d))
          ensures exists i :: 0 <= i < |queries| && queries[i] == Obj(d) && MatchesRank(queries[i], rank) && Passed(queries, rank, i)
        {
          var i :| 0 <= i < |t| && t[i] == Obj(d) && MatchesRank(t[i], rank) && Passed(t, rank, i);
          assert queries[i + 1] == Obj(d) && Passed(queries, rank, i + 1);
        }
      }
    }
  }

  /** The matching loop of `save_analysis_prompts`, leaving at `break`. */
  method MatchQuery(queries: seq<Json>, rank: int) returns (found: Option<Option<Dict>>)
    ensures found == FindQuery(queries, rank)
  {
    var i := 0;
    while i < |queries|
      invariant 0 <= i <= |queries|
      invariant FindQuery(queries, rank) == FindQuery(queries[i..], rank)
    {
      var q := queries[i];
      assert queries[i..][0] == q;
      if !(q.Obj? && "rank" in q.fields) {
        return None;
      }
      if AsNumber(q.fields["rank"]) == Some(rank as real) {
        return Some(Some(q.fields));
      }
      assert queries[i..][1..] == queries[i + 1..];
      i := i + 1;
    }
    return Some(None);
  }

  // ----- save_analysis_prompts: prompt files -----

  const PromptsDir := "analysis_prompts"
  const IndexFile := "analysis_prompts_index.json"

  /** `os.path.join('analysis_prompts', f'prompt_{rank:02d}.txt')`. */
  function PromptFile(rank: int): string
  {
    PromptsDir + "/prompt_" + Format02d(rank) + ".txt"
  }

  /** Different ranks get different prompt files. */
  lemma PromptFileInjective(a: nat, b: nat)
    requires PromptFile(a) == PromptFile(b)
    ensures a == b
  {
    var p := PromptsDir + "/prompt_";
    var fa, fb := Format02d(a), Format02d(b);
    assert |PromptFile(a)| == |p| + |fa| + 4;
    assert |fa| == |fb|;
    assert fa == PromptFile(a)[|p|..|p| + |fa|];
    assert fb == PromptFile(b)[|p|..|p| + |fb|];
  }

  /** The query a prompt is built from: the matched one, or `{'title': title, 'rank': rank}`. */
  function Hotspot(found: Option<Dict>, title: Json, rank: int): Dict
  {
    match found
    case Some(q) => q
    case None => map["title" := title, "rank" := Int(rank)]
  }

  /** The title the prompt shows: `hotspot_data.get('title', '未知热点')`. */
  function PromptTitle(hotspot: Dict): Json
  {
    GetOr(hotspot, "title", Str("未知热点"))
  }

  /** One entry of `prompts_data`. */
  datatype PromptEntry = PromptEntry(rank: nat, title: Json, promptFile: string, hotspot: Dict, summary: Json)

  /** The entry for one result; `None` where matching or summarising raises. */
  function EntryOf(r: SearchResult, queries: Json, show: Json -> string): (e: Option<PromptEntry>)
    ensures e.Some? ==> e.value.rank == r.rank && e.value.title == r.title && e.value.promptFile == PromptFile(r.rank)
    ensures e.Some? ==> Short(e.value.summary) && Snippet(Obj(r.data), show) == Some(e.value.summary)
    ensures e.Some? ==> "rank" in e.value.hotspot && AsNumber(e.value.hotspot["rank"]) == Some(r.rank as real)
  {
    match Elements(queries)
    case None => None
    case Some(qs) =>
      match (FindQuery(qs, r.rank), Snippet(Obj(r.data), show))
      case (Some(found), Some(summary)) =>
        Some(PromptEntry(r.rank, r.title, PromptFile(r.rank), Hotspot(found, r.title, r.rank), summary))
      case _ => None
  }

  function EntryFor(queries: Json, show: Json -> string): SearchResult -> Option<PromptEntry>
  {
    r => EntryOf(r, queries, show)
  }

  /** Opening the prompt file for writing succeeds: it is not a directory. */
  function Writable(dirs: set<string>): PromptEntry -> bool
  {
    (e: PromptEntry) => e.promptFile !in dirs
  }

  /** The prompt files of `kept`, written in order. */
  function WritePrompts(fs: FileSystem, kept: seq<PromptEntry>, render: (Json, Json) -> string): FileSystem
    decreases |kept|
  {
    if kept == [] then fs
    else
      var e := kept[|kept| - 1];
      Write(WritePrompts(fs, kept[..|kept| - 1], render), e.promptFile, TextFile(render(PromptTitle(e.hotspot), e.summary)))
  }

  /** How `json.dump` writes one entry. */
  function EntryJson(e: PromptEntry): Json
  {
    Obj(map["rank" := Int(e.rank), "title" := e.title, "prompt_file" := Str(e.promptFile),
            "hotspot_data" := Obj(e.hotspot), "search_summary" := e.summary])
  }

  /** The index file, unless opening it fails (the error is caught). */
  function SaveIndex(fs: FileSystem, kept: seq<PromptEntry>): FileSystem
  {
    if IndexFile in fs.dirs then fs else Write(fs, IndexFile, JsonFile(Arr(Map(kept, EntryJson))))
  }

  /**
   * `save_analysis_prompts`: the entries whose prompt file was written and
   * the directory tree afterwards; `None` where it raises.
   */
  function SavedPrompts(fs: FileSystem, results: seq<SearchResult>, queries: Json, show: Json -> string,
                        render: (Json, Json) -> string): Option<(seq<PromptEntry>, FileSystem)>
  {
    if PromptsDir in fs.files then None
    else
      var fs1 := fs.(dirs := fs.dirs + {PromptsDir});
      match Traverse(results, EntryFor(queries, show))
      case None => None
      case Some(entries) =>
        var kept := Filter(entries, Writable(fs1.dirs));
        Some((kept, SaveIndex(WritePrompts(fs1, kept, render), kept)))
  }

  /** Every written prompt file is in the tree afterwards, and no other file or directory changes. */
  lemma {:induction false} WrittenPrompts(fs: FileSystem, kept: seq<PromptEntry>, render: (Json, Json) -> string)
    ensures WritePrompts(fs, kept, render).dirs == fs.dirs
    ensures forall e :: e in kept ==>
      e.promptFile in WritePrompts(fs, kept, render).files && WritePrompts(fs, kept, render).files[e.promptFile].TextFile?
    ensures forall p :: p in fs.files && (forall e :: e in kept ==> e.promptFile != p) ==>
      p in WritePrompts(fs, kept, render).files && WritePrompts(fs, kept, render).files[p] == fs.files[p]
    decreases |kept|
  {
    if kept != [] {
      var init, last := kept[..|kept| - 1], kept[|kept| - 1];
      var prev := WritePrompts(fs, init, render);
      var next := WritePrompts(fs, kept, render);
      WrittenPrompts(fs, init, render);
      assert kept == init + [last];
      assert next == Write(prev, last.promptFile, TextFile(render(PromptTitle(last.hotspot), last.summary)));
      forall e | e in kept ensures e.promptFile in next.files && next.files[e.promptFile].TextFile? {
        if e != last {
          assert e in init;
        }
      }
      forall p | p in fs.files && (forall e :: e in kept ==> e.promptFile != p)
        ensures p in next.files && next.files[p] == fs.files[p]
      {
        assert last in kept;
        forall e | e in init ensures e.promptFile != p {
          assert e in kept;
        }
      }
    }
  }

  /** The index file is never a prompt file. */
  lemma IndexNotPrompt(rank: int)
    ensures PromptFile(rank) != IndexFile
  {
    assert PromptFile(rank)[16] == '/';
    assert IndexFile[16] == '_';
  }

  /**
   * What `save_analysis_prompts` promises: it raises exactly when the prompt
   * directory is a file or some result cannot be matched or summarised; and
   * otherwise every kept entry comes from a result, has its prompt file
   * written, and the index lists the kept entries.
   */
  lemma SavedPromptsMeaning(fs: FileSystem, results: seq<SearchResult>, queries: Json, show: Json -> string,
                            render: (Json, Json) -> string)
    ensures SavedPrompts(fs, results, queries, show, render).None? <==>
      PromptsDir in fs.files || exists i :: 0 <= i < |results| && EntryOf(results[i], queries, show).None?
    ensures SavedPrompts(fs, results, queries, show, render).Some? ==>
      var (kept, fs') := SavedPrompts(fs, results, queries, show, render).value;
      |kept| <= |results| && PromptsDir in fs'.dirs &&
      (forall e :: e in kept ==>
        (exists i :: 0 <= i < |results| && EntryOf(results[i], queries, show) == Some(e)) &&
        e.promptFile in fs'.files && fs'.files[e.promptFile].TextFile?) &&
      (IndexFile !in fs.dirs ==> IndexFile in fs'.files && fs'.files[IndexFile] == JsonFile(Arr(Map(kept, EntryJson))))
  {
    if SavedPrompts(fs, results, queries, show, render).Some? {
      var fs1 := fs.(dirs := fs.dirs + {PromptsDir});
      KeptFromResults(results, queries, show, fs1.dirs);
      var kept := Filter(Traverse(results, EntryFor(queries, show)).value, Writable(fs1.dirs));
      KeptWritten(fs1, kept, render);
    } else if PromptsDir !in fs.files {
      assert Traverse(results, EntryFor(queries, show)).None?;
      var i :| 0 <= i < |results| && EntryFor(queries, show)(results[i]).None?;
      assert EntryOf(results[i], queries, show).None?;
    }
  }

  /** Every kept entry is the entry of some result. */
  lemma KeptFromResults(results: seq<SearchResult>, queries: Json, show: Json -> string, dirs: set<string>)
    requires Traverse(results, EntryFor(queries, show)).Some?
    ensures var kept := Filter(Traverse(results, EntryFor(queries, show)).value, Writable(dirs));
      |kept| <= |results| &&
      (forall e :: e in kept ==> e.promptFile == PromptFile(e.rank)) &&
      forall e :: e in kept ==> exists i :: 0 <= i < |results| && EntryOf(results[i], queries, show) == Some(e)
  {
    var entries := Traverse(results, EntryFor(queries, show)).value;
    var kept := Filter(entries, Writable(dirs));
    forall e | e in kept
      ensures e.promptFile == PromptFile(e.rank)
      ensures exists i :: 0 <= i < |results| && EntryOf(results[i], queries, show) == Some(e)
    {
      assert e in entries;
      var i :| 0 <= i < |entries| && entries[i] == e;
      EntryAt(results, queries, show, i);
    }
  }

  /** The entry at position `i` is the entry of the result at `i`. */
  lemma EntryAt(results: seq<SearchResult>, queries: Json, show: Json -> string, i: int)
    requires Traverse(results, EntryFor(queries, show)).Some? && 0 <= i < |results|
    ensures EntryOf(results[i], queries, show) == Some(Traverse(results, EntryFor(queries, show)).value[i])
  {
    assert EntryFor(queries, show)(results[i]) == EntryOf(results[i], queries, show);
  }

  /** After the prompts and the index are written, every kept prompt file is a text file and the index lists the kept entries. */
  lemma KeptWritten(fs1: FileSystem, kept: seq<PromptEntry>, render: (Json, Json) -> string)
    requires PromptsDir in fs1.dirs
    requires forall e :: e in kept ==> e.promptFile == PromptFile(e.rank)
    ensures var fs' := SaveIndex(WritePrompts(fs1, kept, render), kept);
      PromptsDir in fs'.dirs &&
      (forall e :: e in kept ==> e.promptFile in fs'.files && fs'.files[e.promptFile].TextFile?) &&
      (IndexFile !in fs1.dirs ==> IndexFile in fs'.files && fs'.files[IndexFile] == JsonFile(Arr(Map(kept, EntryJson))))
  {
    WrittenPrompts(fs1, kept, render);
    forall e | e in kept ensures e.promptFile != IndexFile {
      IndexNotPrompt(e.rank);
    }
  }

  /** Appending one entry to the kept list writes its prompt file last. */
  lemma WritePromptsAppend(fs: FileSystem, kept: seq<PromptEntry>, e: PromptEntry, render: (Json, Json) -> string)
    ensures WritePrompts(fs, kept + [e], render) ==
      Write(WritePrompts(fs, kept, render), e.promptFile, TextFile(render(PromptTitle(e.hotspot), e.summary)))
  {
    assert (kept + [e])[..|kept|] == kept;
  }

  /** One more entry joins the kept ones exactly when its prompt file is writable. */
  lemma KeepStep(entries: seq<PromptEntry>, e: PromptEntry, dirs: set<string>)
    ensures Filter(entries + [e], Writable(dirs)) == Filter(entries, Writable(dirs)) + (if e.promptFile !in dirs then [e] else [])
  {
    FilterAppend(entries, [e], Writable(dirs));
    assert [e][1..] == [];
  }

  /** The entry for one result, with the matching loop. */
  method BuildEntry(r: SearchResult, queries: Json, show: Json -> string) returns (e: Option<PromptEntry>)
    ensures e == EntryOf(r, queries, show)
  {
    var qs := Elements(queries);
    if qs.None? {
      return None;
    }
    var found := MatchQuery(qs.value, r.rank);
    if found.None? {
      return None;
    }
    var summary := ExtractSearchSnippet(Obj(r.data), show);
    if summary.None? {
      return None;
    }
    e := Some(PromptEntry(r.rank, r.title, PromptFile(r.rank), Hotspot(found.value, r.title, r.rank), summary.value));
  }

  /** The loop of `save_analysis_prompts`: build each entry, write its prompt, keep it when the write succeeds. */
  method WriteEntries(fs1: FileSystem, results: seq<SearchResult>, queries: Json, show: Json -> string,
                      render: (Json, Json) -> string)
    returns (kept: Option<seq<PromptEntry>>, fs': FileSystem)
    ensures kept.Some? <==> Traverse(results, EntryFor(queries, show)).Some?
    ensures kept.Some? ==> kept.value == Filter(Traverse(results, EntryFor(queries, show)).value, Writable(fs1.dirs))
    ensures kept.Some? ==> fs' == WritePrompts(fs1, kept.value, render)
  {
    fs' := fs1;
    ghost var build := EntryFor(queries, show);
    ghost var entries: seq<PromptEntry> := [];
    var acc: seq<PromptEntry> := [];
    for i := 0 to |results|
      invariant Traverse(results[..i], build) == Some(entries)
      invariant KeptSoFar(fs1, entries, acc, fs', render)
    {
      var e := BuildEntry(results[i], queries, show);
      assert build(results[i]) == e;
      if e.None? {
        TraverseFails(results, build, i);
        return None, fs';
      }
      TraverseStep(results, build, i, entries);
      KeepStep(entries, e.value, fs1.dirs);
      WritePromptsAppend(fs1, acc, e.value, render);
      entries := entries + [e.value];
      if e.value.promptFile !in fs'.dirs {
        fs' := Write(fs', e.value.promptFile, TextFile(render(PromptTitle(e.value.hotspot), e.value.summary)));
        acc := acc + [e.value];
      }
    }
    assert results[..|results|] == results;
    kept := Some(acc);
  }

  /** The loop invariant of `WriteEntries`: the writable entries so far are kept, and their prompts written. */
  ghost predicate KeptSoFar(fs1: FileSystem, entries: seq<PromptEntry>, acc: seq<PromptEntry>, fs': FileSystem,
                            render: (Json, Json) -> string)
  {
    acc == Filter(entries, Writable(fs1.dirs)) && fs' == WritePrompts(fs1, acc, render) && fs'.dirs == fs1.dirs
  }

  /** `save_analysis_prompts`. */
  method SaveAnalysisPrompts(fs: FileSystem, results: seq<SearchResult>, queries: Json, show: Json -> string,
                             render: (Json, Json) -> string)
    returns (saved: Option<seq<PromptEntry>>, fs': FileSystem)
    ensures saved.Some? <==> SavedPrompts(fs, results, queries, show, render).Some?
    ensures saved.Some? ==> SavedPrompts(fs, results, queries, show, render) == Some((saved.value, fs'))
  {
    if PromptsDir in fs.files {
      return None, fs;
    }
    var fs1 := fs.(dirs := fs.dirs + {PromptsDir});
    saved, fs' := WriteEntries(fs1, results, queries, show, render);
    if saved.None? {
      return None, fs';
    }
    if IndexFile !in fs'.dirs {
      fs' := Write(fs', IndexFile, JsonFile(Arr(Map(saved.value, EntryJson))));
    }
  }

  // ----- create_analysis_instructions -----

  const InstructionsFile := "AI_ANALYSIS_INSTRUCTIONS.md"
  /** Only this many prompts are listed in the instructions. */
  const ListedLimit := 10

  /** The result file an analysis is to be saved to, named as the HTML report's loader expects. */
  function OutputFile(rank: int): string
  {
    "analysis_results/result_" + Format02d(rank) + ".json"
  }

  /** One listed prompt: its rank and title, prompt file and output file. */
  datatype Listing = Listing(rank: nat, title: Json, promptFile: string, outputFile: string)

  function ListingOf(e: PromptEntry): Listing
  {
    Listing(e.rank, e.title, e.promptFile, OutputFile(e.rank))
  }

  /** What the instruction sheet says: when, how many prompts in all, which are listed, how many are not. */
  datatype Instructions = Instructions(generated: string, total: nat, listed: seq<Listing>, remaining: Option<nat>)

  /** The sheet for `prompts`: at most the first ten are listed, and the rest are counted. */
  function InstructionsOf(prompts: seq<PromptEntry>, now: Clock.DateTime): (r: Instructions)
    ensures r.total == |prompts|
    ensures |r.listed| == if |prompts| < ListedLimit then |prompts| else ListedLimit
    ensures forall i :: 0 <= i < |r.listed| ==> r.listed[i] == ListingOf(prompts[i])
    ensures r.remaining.Some? <==> |prompts| > ListedLimit
    ensures r.remaining.Some? ==> |r.listed| + r.remaining.value == |prompts|
  {
    Instructions(Clock.IsoSeconds(now), |prompts|, Map(SliceTo(prompts, ListedLimit), ListingOf),
                 if |prompts| > ListedLimit then Some(|prompts| - ListedLimit) else None)
  }

  /** The directory tree after the sheet is saved; a failed write is caught. */
  function WriteInstructions(fs: FileSystem, prompts: seq<PromptEntry>, now: Clock.DateTime,
                             render: Instructions -> string): FileSystem
  {
    if InstructionsFile in fs.dirs then fs
    else Write(fs, InstructionsFile, TextFile(render(InstructionsOf(prompts, now))))
  }

  /** `create_analysis_instructions`, with its loop over the first ten prompts. */
  method CreateAnalysisInstructions(fs: FileSystem, prompts: seq<PromptEntry>, now: Clock.DateTime,
                                    render: Instructions -> string) returns (fs': FileSystem)
    ensures fs' == WriteInstructions(fs, prompts, now, render)
  {
    var listed := ListPrompts(SliceTo(prompts, ListedLimit));
    var remaining: Option<nat> := None;
    if |prompts| > ListedLimit {
      remaining := Some(|prompts| - ListedLimit);
    }
    var sheet := Instructions(Clock.IsoSeconds(now), |prompts|, listed, remaining);
    if InstructionsFile in fs.dirs {
      return fs;
    }
    fs' := Write(fs, InstructionsFile, TextFile(render(sheet)));
  }

  /** The loop over `prompts[:10]` that lists each prompt. */
  method ListPrompts(first: seq<PromptEntry>) returns (listed: seq<Listing>)
    ensures listed == Map(first, ListingOf)
  {
    listed := [];
    for i := 0 to |first|
      invariant listed == Map(first[..i], ListingOf)
    {
      MapPrefix(first, i, ListingOf);
      listed := listed + [ListingOf(first[i])];
    }
    assert first[..|first|] == first;
  }

  // ----- main -----

  const QueriesFile := "weibo_search_queries.json"

  /** `load_hotspot_queries`: the parsed file, or `[]` when loading fails. */
  function LoadQueries(fs: FileSystem): Json
  {
    match LoadJson(fs, QueriesFile)
    case Some(j) => j
    case None => Arr([])
  }

  /**
   * `main`: it stops with 1 when there are no queries, no results or no
   * prompts; otherwise it writes the prompts and the instructions and ends
   * with 0.
   */
  method RunScript(fs: FileSystem, listing: seq<string>, now: Clock.DateTime, show: Json -> string,
              renderPrompt: (Json, Json) -> string, renderSheet: Instructions -> string)
    returns (run: Run, fs': FileSystem)
    ensures !Truthy(LoadQueries(fs)) ==> run == Exited(1) && fs' == fs
    ensures Truthy(LoadQueries(fs)) && SearchResults(fs, listing) == [] ==> run == Exited(1) && fs' == fs
    ensures Truthy(LoadQueries(fs)) && SearchResults(fs, listing) != [] ==>
      var saved := SavedPrompts(fs, SearchResults(fs, listing), LoadQueries(fs), show, renderPrompt);
      (saved.None? ==> run == Crashed) &&
      (saved.Some? && saved.value.0 == [] ==> run == Exited(1) && fs' == saved.value.1) &&
      (saved.Some? && saved.value.0 != [] ==>
        run == Exited(0) && fs' == WriteInstructions(saved.value.1, saved.value.0, now, renderSheet))
  {
    var queries := LoadQueries(fs);
    if !Truthy(queries) {
      return Exited(1), fs;
    }
    var results := LoadSearchResults(fs, listing);
    if results == [] {
      return Exited(1), fs;
    }
    var prompts;
    prompts, fs' := SaveAnalysisPrompts(fs, results, queries, show, renderPrompt);
    if prompts.None? {
      return Crashed, fs';
    }
    if prompts.value == [] {
      return Exited(1), fs';
    }
    fs' := CreateAnalysisInstructions(fs', prompts.value, now, renderSheet);
    run := Exited(0);
  }
}
