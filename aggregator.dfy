/**
 * The aggregator (`combine_results.py`): every `analysis_results/result_*.json`
 * record is visited in sorted path order, its rank is recovered from the file
 * name when the record has none, its title and heat are filled in from the
 * same-rank search-results file and the topic-query list, and it is stored in
 * a dictionary keyed by rank, so that a later file for the same rank replaces
 * the earlier record. The dictionary's values, sorted by rank, are written to
 * `hotspot_analysis_results.json`.
 */
module Aggregator {
  import opened Wrappers
  import opened PyJson
  import opened Text
  import Files
  import Sorting

  const ResultsDir := "analysis_results"
  const QueriesFile := "weibo_search_queries.json"
  const OutputFile := "hotspot_analysis_results.json"

  // ----- which files are visited, and in which order -----

  /** A name the pattern `result_*.json` matches. */
  predicate IsResultName(name: string)
  {
    |name| >= |"result_.json"| && StartsWith(name, "result_") && EndsWith(name, ".json")
  }

  /** `glob.glob('analysis_results/result_*.json')`, given the directory's listing. */
  function Glob(listing: seq<string>): (paths: seq<string>)
    ensures |paths| <= |listing|
    ensures forall p :: p in paths <==> exists n :: n in listing && IsResultName(n) && p == ResultsDir + "/" + n
  {
    if listing == [] then []
    else
      var rest := Glob(listing[1..]);
      assert listing == [listing[0]] + listing[1..];
      if IsResultName(listing[0]) then [ResultsDir + "/" + listing[0]] + rest else rest
  }

  /** `sorted(files)`: the order in which the records are visited. */
  function VisitOrder(listing: seq<string>): seq<string>
  {
    SortStrings(Glob(listing))
  }

  /** The rank `re.search(r'result_(\d+).json', path)` finds in a path (the `.` matches any character). */
  function RankFromPath(path: string): Option<nat>
  {
    SearchDigits(path, "result_", [AnyChar] + Literal("json"))
  }

  /** No occurrence of `result_` starts inside the directory prefix `analysis_results/`. */
  lemma NoLiteralInDirPrefix(s: string, i: nat)
    requires |s| >= 24 && s[..17] == ResultsDir + "/" && i < 17
    ensures !(s[i..i + 7] == "result_")
  {
    var dir := ResultsDir + "/";
    assert s[i] == dir[i];
    if i == 9 {
      assert s[15] == dir[15] == 's';
      assert s[i..i + 7][6] == s[15];
    } else {
      assert dir[i] != 'r';
      assert s[i..i + 7][0] == s[i];
    }
  }

  /** For every file the glob can produce with digits as its star, the recovered rank is their value. */
  lemma {:induction false} RankFromResultPath(digits: string)
    requires digits != [] && AllDigits(digits)
    ensures RankFromPath(ResultsDir + "/result_" + digits + ".json") == Some(DigitsValue(digits))
  {
    var pre := ResultsDir + "/";
    var s := pre + "result_" + digits + ".json";
    assert ResultsDir + "/result_" + digits + ".json" == s;
    MatchAfterPrefix(pre, digits);
    SkipDirPrefix(s, 17);
  }

  /** After a 17-character prefix, `result_`, the digits and `.json` match at index 17. */
  lemma MatchAfterPrefix(pre: string, digits: string)
    requires |pre| == 17 && digits != [] && AllDigits(digits)
    ensures var s := pre + "result_" + digits + ".json";
      |s| >= 24 && s[..17] == pre &&
      MatchAt(s, 17, "result_", [AnyChar] + Literal("json")) == Some(DigitsValue(digits))
  {
    var s := pre + "result_" + digits + ".json";
    var suffix := [AnyChar] + Literal("json");
    var at := 24 + |digits|;
    assert s[..17] == pre;
    assert s[17..24] == "result_";
    assert s[24..at] == digits;
    assert s[at..] == ".json";
    assert PatAt(s, at, suffix);
    MatchAtDigits(s, 17, "result_", digits, suffix);
  }

  /** The search passes over the directory prefix `analysis_results/` without a match. */
  lemma {:induction false} SkipDirPrefix(s: string, i: nat)
    requires |s| >= 24 && s[..17] == ResultsDir + "/" && i <= 17
    ensures SearchFrom(s, 0, "result_", [AnyChar] + Literal("json")) == SearchFrom(s, i, "result_", [AnyChar] + Literal("json"))
  {
    if i > 0 {
      SkipDirPrefix(s, i - 1);
      NoLiteralInDirPrefix(s, i - 1);
      SearchSkip(s, i - 1, "result_", [AnyChar] + Literal("json"));
    }
  }

  // ----- one record -----

  /** What visiting one file contributes. */
  datatype Outcome =
    | Skipped                         // the `except` around the whole file fired
    | Unranked(record: Dict)          // no usable rank: appended to the list that is later discarded
    | Ranked(key: int, record: Dict)  // stored under `results_dict[rank]`

  /** Step 1: a record without a `rank` key takes the number in its file name, if there is one. */
  function WithRecoveredRank(data: Dict, path: string): (d: Dict)
    ensures "rank" in data ==> d == data
    ensures "rank" !in data && RankFromPath(path).Some? ==> d == data["rank" := Int(RankFromPath(path).value)]
    ensures "rank" !in data && RankFromPath(path).None? ==> d == data
  {
    if "rank" in data then data
    else match RankFromPath(path)
      case Some(n) => data["rank" := Int(n)]
      case None => data
  }

  /** `data.get('rank')`, with Python's `None` as `Null`. */
  function RankValue(data: Dict): Json
  {
    GetOr(data, "rank", Null)
  }

  /** The search-results file `search_results_{rank:02d}.json` for a rank. */
  function SearchFile(rank: int): string
  {
    "search_results_" + Format02d(rank) + ".json"
  }

  /**
   * Step 2: the title from the same-rank search-results file, when the record
   * has none. `None` when that file exists but reading, parsing, testing
   * `'title' in sdata` or subscripting it raises: the whole record is then skipped.
   */
  function WithSearchTitle(fs: Files.FileSystem, data: Dict, rank: int): (r: Option<Dict>)
    ensures r.Some? ==> r.value.Keys <= data.Keys + {"title"}
    ensures r.Some? ==> forall k :: k in data ==> k in r.value && r.value[k] == data[k]
    ensures !Files.Exists(fs, SearchFile(rank)) ==> r == Some(data)
  {
    var sfile := SearchFile(rank);
    if !Files.Exists(fs, sfile) then Some(data)
    else match Files.LoadJson(fs, sfile)
      case None => None
      case Some(sdata) =>
        match Contains(sdata, "title")
        case None => None
        case Some(has) =>
          if has && "title" !in data then
            match Subscript(sdata, "title")
            case None => None
            case Some(t) => Some(data["title" := t])
          else Some(data)
  }

  /** What the `for q in queries` loop ends with. */
  datatype QueryScan =
    | Found(index: nat, query: Dict)  // the first query whose rank equals the record's; `break`
    | NotFound                        // the loop ran to the end
    | Raised                          // `q.get` or the iteration raised before a match

  /** `q.get('rank') == rank` for a query object; numbers compare by value (`True == 1`, `3.0 == 3`). */
  predicate RankMatches(q: Dict, rank: int)
  {
    "rank" in q && AsNumber(q["rank"]) == Some(rank as real)
  }

  function ScanItems(items: seq<Json>, rank: int, from: nat): QueryScan
    decreases |items| - from
  {
    if from >= |items| then NotFound
    else if !items[from].Obj? then Raised
    else if RankMatches(items[from].fields, rank) then Found(from, items[from].fields)
    else ScanItems(items, rank, from + 1)
  }

  /**
   * The query loop over whatever the query file held. Iterating a dict yields
   * its keys and iterating a string its characters; both are strings, which
   * have no `.get`, so a non-empty one raises at once. Other scalars are not
   * iterable.
   */
  function ScanQueries(queries: Json, rank: int): QueryScan
  {
    match queries
    case Arr(items) => ScanItems(items, rank, 0)
    case Obj(m) => if m == map[] then NotFound else Raised
    case Str(s) => if s == "" then NotFound else Raised
    case _ => Raised
  }

  /** The scan's result, stated without reference to how it is computed. */
  ghost predicate IsFirstMatch(queries: Json, rank: int, scan: QueryScan)
  {
    match queries
    case Arr(items) =>
      (match scan
      case Found(i, q) =>
        i < |items| && items[i] == Obj(q) && RankMatches(q, rank) &&
        forall j :: 0 <= j < i ==> items[j].Obj? && !RankMatches(items[j].fields, rank)
      case NotFound =>
        forall j :: 0 <= j < |items| ==> items[j].Obj? && !RankMatches(items[j].fields, rank)
      case Raised =>
        exists i :: 0 <= i < |items| && !items[i].Obj? &&
          forall j :: 0 <= j < i ==> items[j].Obj? && !RankMatches(items[j].fields, rank))
    case Obj(m) => scan == (if m == map[] then NotFound else Raised)
    case Str(s) => scan == (if s == "" then NotFound else Raised)
    case _ => scan == Raised
  }

  lemma {:induction false} ScanItemsFrom(items: seq<Json>, rank: int, from: nat)
    requires from <= |items|
    requires forall j :: 0 <= j < from ==> items[j].Obj? && !RankMatches(items[j].fields, rank)
    ensures IsFirstMatch(Arr(items), rank, ScanItems(items, rank, from))
    decreases |items| - from
  {
    if from < |items| && items[from].Obj? && !RankMatches(items[from].fields, rank) {
      ScanItemsFrom(items, rank, from + 1);
    }
  }

  /** The query scan finds the first query of equal rank, and nothing else satisfies that description. */
  lemma ScanQueriesFirstMatch(queries: Json, rank: int, scan: QueryScan)
    ensures IsFirstMatch(queries, rank, ScanQueries(queries, rank))
    ensures IsFirstMatch(queries, rank, scan) ==> scan == ScanQueries(queries, rank)
  {
    if queries.Arr? {
      ScanItemsFrom(queries.items, rank, 0);
    }
  }

  /** The loop over the queries with its `break`, as the source runs it. */
  method FindQuery(queries: Json, rank: int) returns (scan: QueryScan)
    ensures IsFirstMatch(queries, rank, scan)
  {
    match queries {
      case Arr(items) =>
        var i := 0;
        while i < |items|
          invariant 0 <= i <= |items|
          invariant forall j :: 0 <= j < i ==> items[j].Obj? && !RankMatches(items[j].fields, rank)
        {
          if !items[i].Obj? {
            return Raised;
          }
          if RankMatches(items[i].fields, rank) {
            return Found(i, items[i].fields);
          }
          i := i + 1;
        }
        return NotFound;
      case Obj(m) =>
        return if m == map[] then NotFound else Raised;
      case Str(s) =>
        return if s == "" then NotFound else Raised;
      case _ =>
        return Raised;
    }
  }

  /** Step 3, for a matching query: heat is overwritten, and the title is set only if still absent. */
  function ApplyQuery(data: Dict, q: Dict): (d: Dict)
    ensures d.Keys == data.Keys + {"heat", "title"}
    ensures d["heat"] == GetOr(q, "heat", Int(0))
    ensures "title" in data ==> d["title"] == data["title"]
    ensures "title" !in data ==> d["title"] == GetOr(q, "title", Null)
    ensures forall k :: k in data && k != "heat" ==> d[k] == data[k]
  {
    var d := data["heat" := GetOr(q, "heat", Int(0))];
    if "title" !in d then d["title" := GetOr(q, "title", Null)] else d
  }

  /** Step 3: heat and fallback title from the topic-query file; any failure there only skips this step. */
  function WithQueryFields(fs: Files.FileSystem, data: Dict, rank: int): (d: Dict)
    ensures d.Keys <= data.Keys + {"heat", "title"}
    ensures forall k :: k in data && k != "heat" ==> k in d && d[k] == data[k]
  {
    match Files.LoadJson(fs, QueriesFile)
    case None => data
    case Some(queries) =>
      match ScanQueries(queries, rank)
      case Found(_, q) => ApplyQuery(data, q)
      case _ => data
  }

  /** The contribution of one file to the merge. */
  function FileOutcome(fs: Files.FileSystem, path: string): Outcome
  {
    match Files.LoadJson(fs, path)
    case None => Skipped
    case Some(doc) =>
      if !doc.Obj? then Skipped  // `in`, item assignment or `.get` on a non-dict raises
      else
        var data := WithRecoveredRank(doc.fields, path);
        var rank := RankValue(data);
        if !Truthy(rank) then Unranked(data)
        else match AsInt(rank)
          case None => Skipped     // `{rank:02d}` raises for a non-integer rank
          case Some(r) =>
            match WithSearchTitle(fs, data, r)
            case None => Skipped
            case Some(titled) => Ranked(r, WithQueryFields(fs, titled, r))
  }

  /** One iteration of the source's loop body, mutating `data` step by step. */
  method ProcessFile(fs: Files.FileSystem, path: string) returns (o: Outcome)
    ensures o == FileOutcome(fs, path)
  {
    var loaded := Files.LoadJson(fs, path);
    if loaded.None? || !loaded.value.Obj? {
      return Skipped;
    }
    var data := loaded.value.fields;
    if "rank" !in data {
      var m := RankFromPath(path);
      if m.Some? {
        data := data["rank" := Int(m.value)];
      }
    }
    var rank := RankValue(data);
    if !Truthy(rank) {
      return Unranked(data);
    }
    var r := AsInt(rank);
    if r.None? {
      return Skipped;
    }
    var titled := SearchTitleStep(fs, data, r.value);
    if titled.None? {
      return Skipped;
    }
    data := QueryStep(fs, titled.value, r.value);
    return Ranked(r.value, data);
  }

  /** Step 2 of the loop body, as the source runs it. */
  method SearchTitleStep(fs: Files.FileSystem, data: Dict, rank: int) returns (titled: Option<Dict>)
    ensures titled == WithSearchTitle(fs, data, rank)
  {
    var sfile := SearchFile(rank);
    if !Files.Exists(fs, sfile) {
      return Some(data);
    }
    var sdata := Files.LoadJson(fs, sfile);
    if sdata.None? {
      return None;
    }
    var has := Contains(sdata.value, "title");
    if has.None? {
      return None;
    }
    if has.value && "title" !in data {
      var t := Subscript(sdata.value, "title");
      if t.None? {
        return None;
      }
      return Some(data["title" := t.value]);
    }
    return Some(data);
  }

  /** Step 3 of the loop body, as the source runs it. */
  method QueryStep(fs: Files.FileSystem, data: Dict, rank: int) returns (d: Dict)
    ensures d == WithQueryFields(fs, data, rank)
  {
    d := data;
    var queries := Files.LoadJson(fs, QueriesFile);
    if queries.Some? {
      var scan := FindQuery(queries.value, rank);
      ScanQueriesFirstMatch(queries.value, rank, scan);
      if scan.Found? {
        d := d["heat" := GetOr(scan.query, "heat", Int(0))];
        if "title" !in d {
          d := d["title" := GetOr(scan.query, "title", Null)];
        }
      }
    }
  }

  // ----- what one record keeps -----

  /**
   * Every field the record file holds survives into the merged record, except
   * `heat`, which the first matching query overwrites; the only fields added
   * are `rank`, `title` and `heat`.
   */
  lemma FieldsSurvive(fs: Files.FileSystem, path: string, m: Dict)
    requires Files.LoadJson(fs, path) == Some(Obj(m))
    ensures FileOutcome(fs, path).Ranked? || FileOutcome(fs, path).Unranked? ==>
      var d := FileOutcome(fs, path).record;
      (forall k :: k in m && k != "heat" ==> k in d && d[k] == m[k]) &&
      d.Keys <= m.Keys + {"rank", "title", "heat"}
  {
    var data := WithRecoveredRank(m, path);
    var o := FileOutcome(fs, path);
    assert data.Keys <= m.Keys + {"rank"};
    assert forall k :: k in m ==> k in data && data[k] == m[k];
    if o.Ranked? {
      var titled := WithSearchTitle(fs, data, o.key);
      assert titled.Some? && o.record == WithQueryFields(fs, titled.value, o.key);
      KeepsFields(m, data, titled.value, o.record);
    }
  }

  /** The three steps of the loop body compose: what each keeps, the whole keeps. */
  lemma KeepsFields(m: Dict, data: Dict, titled: Dict, d: Dict)
    requires data.Keys <= m.Keys + {"rank"} && forall k :: k in m ==> k in data && data[k] == m[k]
    requires titled.Keys <= data.Keys + {"title"} && forall k :: k in data ==> k in titled && titled[k] == data[k]
    requires d.Keys <= titled.Keys + {"heat", "title"} && forall k :: k in titled && k != "heat" ==> k in d && d[k] == titled[k]
    ensures forall k :: k in m && k != "heat" ==> k in d && d[k] == m[k]
    ensures d.Keys <= m.Keys + {"rank", "title", "heat"}
  {
  }

  /**
   * A record without a `rank` key takes the number in `result_<digits>` of its
   * path; a record with one keeps it. The record is ranked exactly when that
   * value is truthy and an integer: a rank of 0, null, false or the empty
   * string, or no rank at all, leaves the record unranked.
   */
  lemma RankResolution(fs: Files.FileSystem, path: string, m: Dict)
    requires Files.LoadJson(fs, path) == Some(Obj(m))
    ensures var rank := if "rank" in m then m["rank"]
                        else if RankFromPath(path).Some? then Int(RankFromPath(path).value)
                        else Null;
      var o := FileOutcome(fs, path);
      (o.Unranked? <==> !Truthy(rank)) &&
      (o.Ranked? ==> Truthy(rank) && AsInt(rank) == Some(o.key) && o.record["rank"] == rank) &&
      (Truthy(rank) && AsInt(rank).None? ==> o.Skipped?)
  {
  }

  /**
   * Title backfill for a ranked record: an existing title is never replaced;
   * otherwise the same-rank search-results file's title comes first, and the
   * matching query's title (null if it has none) is the fallback.
   */
  lemma TitleBackfill(fs: Files.FileSystem, path: string, m: Dict)
    requires Files.LoadJson(fs, path) == Some(Obj(m))
    requires FileOutcome(fs, path).Ranked?
    ensures var o := FileOutcome(fs, path);
      var sdata := Files.LoadJson(fs, SearchFile(o.key));
      var queries := Files.LoadJson(fs, QueriesFile);
      var scan := if queries.Some? then ScanQueries(queries.value, o.key) else NotFound;
      ("title" in m ==> o.record["title"] == m["title"]) &&
      ("title" !in m && sdata.Some? && sdata.value.Obj? && "title" in sdata.value.fields ==>
         o.record["title"] == sdata.value.fields["title"]) &&
      ("title" !in m && !(sdata.Some? && sdata.value.Obj? && "title" in sdata.value.fields) && scan.Found? ==>
         o.record["title"] == GetOr(scan.query, "title", Null)) &&
      ("title" !in m && !(sdata.Some? && sdata.value.Obj? && "title" in sdata.value.fields) && !scan.Found? ==>
         "title" !in o.record)
  {
    var o := FileOutcome(fs, path);
    var data := WithRecoveredRank(m, path);
    var titled := WithSearchTitle(fs, data, o.key);
    assert titled.Some?;
    var sdata := Files.LoadJson(fs, SearchFile(o.key));
    if "title" !in m && sdata.Some? && sdata.value.Obj? && "title" in sdata.value.fields {
      assert Files.Exists(fs, SearchFile(o.key));
      assert titled.value["title"] == sdata.value.fields["title"];
    }
    if "title" !in m && !(sdata.Some? && sdata.value.Obj? && "title" in sdata.value.fields) {
      assert "title" !in titled.value;
    }
  }

  /**
   * Heat for a ranked record is set from the first query of equal rank,
   * overwriting any heat the record had and defaulting to 0 when that query
   * has none; with no matching query (or an unreadable query file) the
   * record's heat is left as it was.
   */
  lemma HeatFromFirstQuery(fs: Files.FileSystem, path: string, m: Dict)
    requires Files.LoadJson(fs, path) == Some(Obj(m))
    requires FileOutcome(fs, path).Ranked?
    ensures var o := FileOutcome(fs, path);
      var queries := Files.LoadJson(fs, QueriesFile);
      var scan := if queries.Some? then ScanQueries(queries.value, o.key) else NotFound;
      (scan.Found? ==> o.record["heat"] == GetOr(scan.query, "heat", Int(0))) &&
      (!scan.Found? ==> ("heat" in o.record <==> "heat" in m) &&
                        ("heat" in m ==> o.record["heat"] == m["heat"]))
  {
    var o := FileOutcome(fs, path);
    var data := WithRecoveredRank(m, path);
    var titled := WithSearchTitle(fs, data, o.key);
    assert titled.Some? && titled.value.Keys <= data.Keys + {"title"};
    assert forall k :: k in data && k != "title" ==> titled.value[k] == data[k];
    assert o.record == WithQueryFields(fs, titled.value, o.key);
  }

  /** A record file, or its search-results file, that cannot be read or parsed skips the record. */
  lemma UnreadableSkipped(fs: Files.FileSystem, path: string)
    ensures Files.LoadJson(fs, path).None? ==> FileOutcome(fs, path).Skipped?
    ensures var loaded := Files.LoadJson(fs, path);
      loaded.Some? && loaded.value.Obj? ==>
        var rank := RankValue(WithRecoveredRank(loaded.value.fields, path));
        (Truthy(rank) && AsInt(rank).Some? && Files.Exists(fs, SearchFile(AsInt(rank).value)) &&
         Files.LoadJson(fs, SearchFile(AsInt(rank).value)).None?) ==> FileOutcome(fs, path).Skipped?
  {
  }

  // ----- the merge -----

  function Outcomes(fs: Files.FileSystem, files: seq<string>): (os: seq<Outcome>)
    ensures |os| == |files| && forall i :: 0 <= i < |files| ==> os[i] == FileOutcome(fs, files[i])
  {
    seq(|files|, i requires 0 <= i < |files| => FileOutcome(fs, files[i]))
  }

  /** `results_dict` after the outcomes, in order: each ranked record is stored under its rank. */
  function MergeRanked(os: seq<Outcome>): map<int, Dict>
    decreases |os|
  {
    if os == [] then map[]
    else
      var m := MergeRanked(os[..|os| - 1]);
      match os[|os| - 1]
      case Ranked(k, d) => m[k := d]
      case _ => m
  }

  predicate RankedAs(o: Outcome, k: int)
  {
    o.Ranked? && o.key == k
  }

  /** Outcome `i` is the last one ranked `k`. */
  ghost predicate LastRankedAt(os: seq<Outcome>, k: int, i: int)
  {
    0 <= i < |os| && RankedAs(os[i], k) && forall j :: i < j < |os| ==> !RankedAs(os[j], k)
  }

  /**
   * Last write wins: a rank is in the dictionary exactly when some file was
   * ranked with it, and the record stored is that of the last such file, with
   * no field taken from any earlier one.
   */
  lemma {:induction false} LastWriteWins(os: seq<Outcome>, k: int)
    ensures k in MergeRanked(os) <==> exists i :: 0 <= i < |os| && RankedAs(os[i], k)
    ensures k in MergeRanked(os) ==>
      exists i :: LastRankedAt(os, k, i) && os[i].record == MergeRanked(os)[k]
    decreases |os|
  {
    if os != [] {
      var p := os[..|os| - 1];
      LastWriteWins(p, k);
      var n := |os| - 1;
      if RankedAs(os[n], k) {
        assert LastRankedAt(os, k, n);
      } else if k in MergeRanked(p) {
        var i :| LastRankedAt(p, k, i) && p[i].record == MergeRanked(p)[k];
        assert os[i] == p[i];
        assert LastRankedAt(os, k, i);
      }
    }
  }

  /** Every stored record carries its own rank: its `rank` value is truthy and reads as the key. */
  lemma {:induction false} MergedRecordsCarryRank(fs: Files.FileSystem, files: seq<string>)
    ensures forall k :: k in MergeRanked(Outcomes(fs, files)) ==>
      var d := MergeRanked(Outcomes(fs, files))[k];
      "rank" in d && Truthy(d["rank"]) && AsInt(d["rank"]) == Some(k)
    decreases |files|
  {
    if files != [] {
      var os := Outcomes(fs, files);
      var p := files[..|files| - 1];
      MergedRecordsCarryRank(fs, p);
      assert os[..|os| - 1] == Outcomes(fs, p);
      var path := files[|files| - 1];
      if os[|os| - 1].Ranked? {
        var m := Files.LoadJson(fs, path).value.fields;
        RankResolution(fs, path, m);
      }
    }
  }

  /** `x.get('rank', 999)`, the sort key of the final list. */
  function RankKey(d: Dict): int
  {
    if "rank" in d && AsInt(d["rank"]).Some? then AsInt(d["rank"]).value else 999
  }

  /** `out` lists the values of `byRank` in strictly increasing rank order, each exactly once. */
  ghost predicate IsRankListing(out: seq<Dict>, byRank: map<int, Dict>)
  {
    (forall i, j :: 0 <= i < j < |out| ==> RankKey(out[i]) < RankKey(out[j])) &&
    (forall i :: 0 <= i < |out| ==> RankKey(out[i]) in byRank && out[i] == byRank[RankKey(out[i])]) &&
    (forall k :: k in byRank ==> exists i :: 0 <= i < |out| && RankKey(out[i]) == k)
  }

  /**
   * The names `glob` sees under `analysis_results`: the listing when it is a
   * directory, nothing when it is a plain file (`os.path.exists` lets a file
   * through, and the pattern then matches nothing).
   */
  function DirListing(fs: Files.FileSystem, listing: seq<string>): seq<string>
  {
    if ResultsDir in fs.dirs then listing else []
  }

  /** The dictionary after every visited file. */
  ghost function Merged(fs: Files.FileSystem, listing: seq<string>): map<int, Dict>
  {
    MergeRanked(Outcomes(fs, VisitOrder(DirListing(fs, listing))))
  }

  /** Without an `analysis_results` directory nothing is merged. */
  lemma MergedNeedsDir(fs: Files.FileSystem, listing: seq<string>)
    ensures ResultsDir !in fs.dirs ==> Merged(fs, listing) == map[]
  {
    if ResultsDir !in fs.dirs {
      assert Glob([]) == [] && SortStrings([]) == [];
    }
  }

  function AsJsonList(records: seq<Dict>): (j: Json)
    ensures j.Arr? && |j.items| == |records|
    ensures forall i :: 0 <= i < |records| ==> j.items[i] == Obj(records[i])
  {
    Arr(seq(|records|, i requires 0 <= i < |records| => Obj(records[i])))
  }

  /** The list of values, in any order, holds each stored record exactly once. */
  lemma ValuesMembers(vals: seq<Dict>, order: seq<int>, byRank: map<int, Dict>, out: seq<Dict>)
    requires |vals| == |order| && multiset(out) == multiset(vals)
    requires forall i :: 0 <= i < |order| ==> order[i] in byRank && vals[i] == byRank[order[i]]
    requires forall k :: k in byRank ==> RankKey(byRank[k]) == k
    ensures forall i :: 0 <= i < |out| ==> RankKey(out[i]) in byRank && out[i] == byRank[RankKey(out[i])]
  {
    forall i | 0 <= i < |out| ensures RankKey(out[i]) in byRank && out[i] == byRank[RankKey(out[i])] {
      assert out[i] in multiset(vals);
      var p :| 0 <= p < |vals| && vals[p] == out[i];
      assert order[p] in byRank && vals[p] == byRank[order[p]];
      assert RankKey(out[i]) == order[p];
    }
  }

  lemma ValuesCover(vals: seq<Dict>, order: seq<int>, byRank: map<int, Dict>, out: seq<Dict>)
    requires |vals| == |order| && multiset(out) == multiset(vals)
    requires forall i :: 0 <= i < |order| ==> order[i] in byRank && vals[i] == byRank[order[i]]
    requires forall k :: k in byRank ==> k in order
    requires forall k :: k in byRank ==> RankKey(byRank[k]) == k
    ensures forall k :: k in byRank ==> exists i :: 0 <= i < |out| && RankKey(out[i]) == k
  {
    forall k | k in byRank ensures exists i :: 0 <= i < |out| && RankKey(out[i]) == k {
      var p :| 0 <= p < |order| && order[p] == k;
      assert vals[p] in multiset(out);
      var i :| 0 <= i < |out| && out[i] == vals[p];
      assert RankKey(out[i]) == k;
    }
  }

  lemma ListingFromValues(vals: seq<Dict>, order: seq<int>, byRank: map<int, Dict>)
    requires |vals| == |order|
    requires forall i :: 0 <= i < |order| ==> order[i] in byRank && vals[i] == byRank[order[i]]
    requires forall i, j :: 0 <= i < j < |order| ==> order[i] != order[j]
    requires forall k :: k in byRank ==> k in order
    requires forall k :: k in byRank ==> RankKey(byRank[k]) == k
    ensures IsRankListing(Sorting.SortBy(vals, RankKey), byRank)
  {
    var out := Sorting.SortBy(vals, RankKey);
    Sorting.SortBySorted(vals, RankKey);
    assert Sorting.NoDuplicates(vals) by {
      forall i, j | 0 <= i < j < |vals| ensures vals[i] != vals[j] {
        assert RankKey(vals[i]) == order[i] && RankKey(vals[j]) == order[j];
      }
    }
    Sorting.PermutationNoDuplicates(vals, out);
    ValuesMembers(vals, order, byRank, out);
    ValuesCover(vals, order, byRank, out);
    StrictRanks(out, byRank);
  }

  /** Distinct records that are sorted by rank and stored under their ranks have strictly increasing ranks. */
  lemma StrictRanks(out: seq<Dict>, byRank: map<int, Dict>)
    requires Sorting.SortedBy(out, RankKey) && Sorting.NoDuplicates(out)
    requires forall i :: 0 <= i < |out| ==> RankKey(out[i]) in byRank && out[i] == byRank[RankKey(out[i])]
    ensures forall i, j :: 0 <= i < j < |out| ==> RankKey(out[i]) < RankKey(out[j])
  {
    forall i, j | 0 <= i < j < |out| ensures RankKey(out[i]) < RankKey(out[j]) {
      assert RankKey(out[i]) <= RankKey(out[j]) && out[i] != out[j];
      assert out[i] == byRank[RankKey(out[i])] && out[j] == byRank[RankKey(out[j])];
    }
  }

  /** One more visited file stores its record under its rank, if it has one. */
  lemma MergeStep(fs: Files.FileSystem, files: seq<string>, i: int)
    requires 0 <= i < |files|
    ensures var o := FileOutcome(fs, files[i]);
      var before := MergeRanked(Outcomes(fs, files[..i]));
      MergeRanked(Outcomes(fs, files[..i + 1])) == if o.Ranked? then before[o.key := o.record] else before
  {
    assert Outcomes(fs, files[..i + 1])[..i] == Outcomes(fs, files[..i]);
  }

  /**
   * `main`: when `analysis_results` does not exist nothing is written and
   * the script returns normally; when it is a plain file, `glob` finds no
   * result file and an empty list is written. Otherwise the output lists the last-written
   * record of every rank, in strictly increasing rank order, and is written
   * to `hotspot_analysis_results.json`; when that path is a directory,
   * opening it raises outside any `try` and the script crashes with nothing
   * written.
   */
  method Combine(fs: Files.FileSystem, listing: seq<string>)
    returns (run: Run, output: Option<seq<Dict>>, fs': Files.FileSystem)
    ensures !Files.Exists(fs, ResultsDir) ==> run == Exited(0) && output.None? && fs' == fs
    ensures Files.Exists(fs, ResultsDir) && OutputFile in fs.dirs ==> run == Crashed && output.None? && fs' == fs
    ensures Files.Exists(fs, ResultsDir) && OutputFile !in fs.dirs ==>
      run == Exited(0) && output.Some? && fs' == Files.Write(fs, OutputFile, Files.JsonFile(AsJsonList(output.value)))
    ensures output.Some? ==> IsRankListing(output.value, Merged(fs, listing))
  {
    if !Files.Exists(fs, ResultsDir) {
      return Exited(0), None, fs;
    }
    var files := VisitOrder(DirListing(fs, listing));  // `glob` finds nothing when the path is a plain file
    var results: seq<Dict> := [];
    var byRank: map<int, Dict> := map[];
    var order: seq<int> := [];  // the dictionary's key insertion order, which `values()` follows
    for i := 0 to |files|
      invariant byRank == MergeRanked(Outcomes(fs, files[..i]))
      invariant KeyOrder(order, byRank)
    {
      var o := ProcessFile(fs, files[i]);
      MergeStep(fs, files, i);
      match o {
        case Ranked(r, d) =>
          KeyOrderStep(order, byRank, r, d);
          if r !in byRank {
            order := order + [r];
          }
          byRank := byRank[r := d];
        case Unranked(d) =>
          results := results + [d];
        case Skipped =>
      }
    }
    assert files[..|files|] == files;
    MergedRecordsCarryRank(fs, files);
    results := seq(|order|, k requires 0 <= k < |order| => byRank[order[k]]);  // list(results_dict.values())
    ListingFromValues(results, order, byRank);
    results := Sorting.SortBy(results, RankKey);
    if OutputFile in fs.dirs {
      return Crashed, None, fs;  // `open(output_file, 'w')` on a directory
    }
    run, output := Exited(0), Some(results);
    fs' := Files.Write(fs, OutputFile, Files.JsonFile(AsJsonList(results)));
  }

  /** `order` lists the keys of `byRank` in insertion order, each once. */
  ghost predicate KeyOrder(order: seq<int>, byRank: map<int, Dict>)
  {
    (forall k :: k in byRank ==> k in order) &&
    (forall a :: 0 <= a < |order| ==> order[a] in byRank) &&
    (forall a, b :: 0 <= a < b < |order| ==> order[a] != order[b])
  }

  /** Storing under a key appends the key to the insertion order exactly when it is new. */
  lemma KeyOrderStep(order: seq<int>, byRank: map<int, Dict>, r: int, d: Dict)
    requires KeyOrder(order, byRank)
    ensures KeyOrder(if r in byRank then order else order + [r], byRank[r := d])
  {
  }

  /**
   * The merged record for a rank comes from the lexicographically greatest
   * visited path that yields that rank: every visited path after it in string
   * order yields another rank, an unranked record, or nothing.
   */
  lemma LatestPathWins(fs: Files.FileSystem, listing: seq<string>, k: int)
    requires k in Merged(fs, listing)
    ensures exists p ::
      p in Glob(listing) && FileOutcome(fs, p) == Ranked(k, Merged(fs, listing)[k]) &&
      forall p' :: p' in Glob(listing) && !StrLe(p', p) ==> !RankedAs(FileOutcome(fs, p'), k)
  {
    MergedNeedsDir(fs, listing);
    assert Merged(fs, listing) == MergeRanked(Outcomes(fs, VisitOrder(listing)));
    LatestVisitedWins(fs, listing, k);
  }

  /** `LatestPathWins` over every listed name, as when `analysis_results` is a directory. */
  lemma LatestVisitedWins(fs: Files.FileSystem, listing: seq<string>, k: int)
    requires k in MergeRanked(Outcomes(fs, VisitOrder(listing)))
    ensures exists p ::
      p in Glob(listing) && FileOutcome(fs, p) == Ranked(k, MergeRanked(Outcomes(fs, VisitOrder(listing)))[k]) &&
      forall p' :: p' in Glob(listing) && !StrLe(p', p) ==> !RankedAs(FileOutcome(fs, p'), k)
  {
    var files := VisitOrder(listing);
    var os := Outcomes(fs, files);
    LastWriteWins(os, k);
    SortStringsSorted(Glob(listing));
    var i :| LastRankedAt(os, k, i) && os[i].record == MergeRanked(os)[k];
    var p := files[i];
    assert p in multiset(files);
    forall p' | p' in Glob(listing) && !StrLe(p', p) ensures !RankedAs(FileOutcome(fs, p'), k) {
      assert p' in multiset(files);
      var j :| 0 <= j < |files| && files[j] == p';
      if j <= i {
        if j == i { StrLeRefl(p); }
      }
    }
  }

  /** Records without a usable rank never reach the output: every output record has a truthy rank. */
  lemma UnrankedDropped(fs: Files.FileSystem, listing: seq<string>, out: seq<Dict>)
    requires IsRankListing(out, Merged(fs, listing))
    ensures forall i :: 0 <= i < |out| ==> "rank" in out[i] && Truthy(out[i]["rank"])
  {
    MergedRecordsCarryRank(fs, VisitOrder(DirListing(fs, listing)));
  }

  /** Two trees that differ at most in the output file. */
  ghost predicate SameButOutput(fs: Files.FileSystem, fs': Files.FileSystem)
  {
    fs.dirs == fs'.dirs &&
    (forall q :: q != OutputFile ==> (q in fs.files <==> q in fs'.files)) &&
    (forall q :: q in fs.files && q != OutputFile ==> fs.files[q] == fs'.files[q])
  }

  lemma OutcomeIgnoresOutput(fs: Files.FileSystem, fs': Files.FileSystem, path: string)
    requires SameButOutput(fs, fs')
    requires path != OutputFile
    ensures FileOutcome(fs', path) == FileOutcome(fs, path)
  {
    assert QueriesFile[0] != OutputFile[0];
    SameReads(fs, fs', path);
    SameReads(fs, fs', QueriesFile);
    var loaded := Files.LoadJson(fs, path);
    if loaded.Some? && loaded.value.Obj? {
      var data := WithRecoveredRank(loaded.value.fields, path);
      var rank := RankValue(data);
      if Truthy(rank) && AsInt(rank).Some? {
        var r := AsInt(rank).value;
        assert SearchFile(r)[0] != OutputFile[0];
        SameReads(fs, fs', SearchFile(r));
        assert WithSearchTitle(fs', data, r) == WithSearchTitle(fs, data, r);
        forall titled ensures WithQueryFields(fs', titled, r) == WithQueryFields(fs, titled, r) {
        }
      }
    }
  }

  /** A file other than the output reads the same in both trees. */
  lemma SameReads(fs: Files.FileSystem, fs': Files.FileSystem, p: string)
    requires SameButOutput(fs, fs') && p != OutputFile
    ensures Files.LoadJson(fs', p) == Files.LoadJson(fs, p)
    ensures Files.Exists(fs', p) == Files.Exists(fs, p)
  {
  }

  /**
   * Running the aggregator again after it has written its output gives the
   * same records: the output file is none of the files it reads.
   */
  lemma {:induction false} RerunIgnoresOutput(fs: Files.FileSystem, listing: seq<string>, f: Files.File)
    ensures var fs' := Files.Write(fs, OutputFile, f);
      Files.Exists(fs', ResultsDir) == Files.Exists(fs, ResultsDir) &&
      Merged(fs', listing) == Merged(fs, listing)
  {
    var fs' := Files.Write(fs, OutputFile, f);
    assert ResultsDir[0] != OutputFile[0];
    var ls := DirListing(fs, listing);
    assert DirListing(fs', listing) == ls;
    var files := VisitOrder(ls);
    forall i | 0 <= i < |files| ensures FileOutcome(fs', files[i]) == FileOutcome(fs, files[i]) {
      assert files[i] in multiset(files);
      assert files[i] in Glob(ls);
      var n :| n in ls && IsResultName(n) && files[i] == ResultsDir + "/" + n;
      assert files[i][0] == 'a' != OutputFile[0];
      OutcomeIgnoresOutput(fs, fs', files[i]);
    }
    assert Outcomes(fs', files) == Outcomes(fs, files);
  }
}
