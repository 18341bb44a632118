/**
 * The plain HTML report (`generate_html_report.py`): load every
 * `result_<n>.json` with its rank taken from the file name and defaults for
 * missing fields (or a built-in three-record sample when there are no such
 * files), compute the statistics, build the table rows, save the page after
 * backing up the previous one, and write a JSON envelope around the records.
 */
module HtmlReport {
  import opened Wrappers
  import opened PyJson
  import opened Text
  import opened Scores
  import opened Sorting
  import Files
  import Clock

  const ResultsDir := "analysis_results"
  const ReportFile := "weibo_hotspot_analysis.html"
  const JsonReportFile := "weibo_hotspot_analysis.json"

  /** `get_score_badge_class`. */
  function BadgeClass(score: int): (c: string)
    ensures c == "score-high" <==> score >= 80
    ensures c == "score-medium" <==> 60 <= score < 80
    ensures c == "score-low" <==> score < 60
  {
    match TierOf(score)
    case Top => "score-high"
    case Middle => "score-medium"
    case Bottom => "score-low"
  }

  // ----- loading -----

  /** The filter applied to `os.listdir('analysis_results')`. */
  predicate InResultsDir(name: string)
  {
    EndsWith(name, ".json") && StartsWith(name, "result_")
  }

  /** `re.match(r'result_\d+\.json', name)`: anchored at the start only. */
  predicate InWorkingDir(name: string)
  {
    MatchDigits(name, "result_", Literal(".json")).Some?
  }

  function InDir(name: string): string
  {
    ResultsDir + "/" + name
  }

  /**
   * The result files found: in `analysis_results` if it exists, otherwise in
   * the working directory. `None` where listing raises (the path exists but
   * is a file).
   */
  function Candidates(fs: Files.FileSystem, cwdListing: seq<string>, dirListing: seq<string>): Option<seq<string>>
  {
    if !Files.Exists(fs, ResultsDir) then Some(Filter(cwdListing, InWorkingDir))
    else if ResultsDir in fs.files then None
    else Some(Map(Filter(dirListing, InResultsDir), InDir))
  }

  /** `re.search(r'result_(\d+)', path)`: the longest digit run after the first `result_` followed by a digit. */
  function FileRank(path: string): Option<nat>
  {
    SearchDigits(path, "result_", [])
  }

  /** The rank a file's record gets: the digits in its name, or 0. */
  function PathRank(path: string): nat
  {
    match FileRank(path)
    case Some(n) => n
    case None => 0
  }

  /**
   * A record as the loader builds it. The sample records carry neither
   * `analysis_notes` nor `source_file`, hence the two optional fields.
   */
  datatype Record = Record(rank: int, title: Json, funScore: Json, funReason: Json,
                           usefulScore: Json, usefulReason: Json, totalScore: Json, hasIdea: Json,
                           product: Json, summary: Json, analysisNotes: Option<Json>, sourceFile: Option<string>)

  /** The record built for a file: each field from the file or its default, and the rank from the name. */
  function RecordOf(data: Dict, path: string, rank: nat): Record
  {
    Record(rank, GetOr(data, "title", Str("热点#" + Decimal(rank))),
           GetOr(data, "fun_score", Int(0)), GetOr(data, "fun_reason", Str("")),
           GetOr(data, "useful_score", Int(0)), GetOr(data, "useful_reason", Str("")),
           GetOr(data, "total_score", Int(0)), GetOr(data, "has_idea", Bool(false)),
           GetOr(data, "product", Null), GetOr(data, "summary", Str("暂无事件脉络")),
           Some(GetOr(data, "analysis_notes", Str(""))), Some(path))
  }

  /**
   * A rank stored inside the file plays no part, and a file without a field
   * gets that field's default: the title `热点#<rank>`, zero scores, no idea,
   * no product, the placeholder summary and empty reasons and notes.
   */
  lemma RecordDefaults(data: Dict, path: string, rank: nat, stored: Json)
    ensures RecordOf(data["rank" := stored], path, rank) == RecordOf(data, path, rank)
    ensures RecordOf(map[], path, rank) ==
      Record(rank, Str("热点#" + Decimal(rank)), Int(0), Str(""), Int(0), Str(""), Int(0), Bool(false),
             Null, Str("暂无事件脉络"), Some(Str("")), Some(path))
    ensures RecordOf(data, path, rank).rank == rank && RecordOf(data, path, rank).sourceFile == Some(path)
  {
  }

  /** The file parses to a dict; any other outcome is caught and the file skipped. */
  predicate LoadsDict(fs: Files.FileSystem, path: string)
  {
    var j := Files.LoadJson(fs, path);
    j.Some? && j.value.Obj?
  }

  function MakeRecord(fs: Files.FileSystem, path: string): Record
  {
    match Files.LoadJson(fs, path)
    case Some(Obj(data)) => RecordOf(data, path, PathRank(path))
    case _ => RecordOf(map[], path, PathRank(path))
  }

  /** The records of the loadable files among `paths`, in order. */
  function Collected(fs: Files.FileSystem, paths: seq<string>): seq<Record>
  {
    Map(Filter(paths, p => LoadsDict(fs, p)), p => MakeRecord(fs, p))
  }

  /** `x['rank']`, the final sort key. */
  function RecordRank(r: Record): int
  {
    r.rank
  }

  /** `load_sample_data`: three fixed records with ranks 1, 2 and 3 and total scores 88, 70 and 30. */
  function SampleData(): (s: seq<Record>)
    ensures |s| == 3 && forall i :: 0 <= i < |s| ==> s[i].rank == i + 1
    ensures s[0].totalScore == Int(88) && s[1].totalScore == Int(70) && s[2].totalScore == Int(30)
  {
    [Record(1, Str("AI技术新突破"),
            Int(70), Str("AI技术新颖性强，具有极高的传播性和话题性，能引发用户好奇心"),
            Int(18), Str("可解决实际工作问题，提供智能辅助工具"),
            Int(88), Bool(true),
            Obj(map["name" := Str("AI创意助手"),
                    "features" := Str("智能写作、图像生成、创意建议"),
                    "target_users" := Str("内容创作者、设计师、营销人员"),
                    "description" := Str("基于最新AI技术，为创作者提供智能写作和创意生成工具")]),
            Str("近期AI技术在自然语言处理和图像生成领域取得重大突破，引发广泛讨论和应用探索。"), None, None),
     Record(2, Str("环保健康生活方式"),
            Int(50), Str("生活方式话题具有持续关注度，但新颖性一般"),
            Int(20), Str("直接关系到用户健康，实用价值高"),
            Int(70), Bool(true),
            Obj(map["name" := Str("绿色生活指南"),
                    "features" := Str("环保产品推荐、健康生活建议、社区互动"),
                    "target_users" := Str("注重健康的年轻人群"),
                    "description" := Str("提供个性化的环保健康生活方式建议和社区交流平台")]),
            Str("环保和健康生活方式受到越来越多人关注，市场潜力巨大。"), None, None),
     Record(3, Str("普通人日常新闻"),
            Int(20), Str("内容过于普通，缺乏新颖性和传播性"),
            Int(10), Str("实用价值有限，难以形成独特价值"),
            Int(30), Bool(false), Null,
            Str("普通日常新闻，缺乏突出亮点。"), None, None)]
  }

  /**
   * What `load_analysis_results` returns; `None` where it raises: listing a
   * file as a directory, or a result file whose name has no digits after
   * `result_` (the sort key then calls `.group` on `None`).
   */
  function LoadedResults(fs: Files.FileSystem, cwdListing: seq<string>, dirListing: seq<string>): Option<seq<Record>>
  {
    match Candidates(fs, cwdListing, dirListing)
    case None => None
    case Some(files) =>
      if files == [] then Some(SampleData())
      else if exists i :: 0 <= i < |files| && FileRank(files[i]).None? then None
      else Some(SortBy(Collected(fs, SortBy(files, PathRank)), RecordRank))
  }

  lemma CollectedStep(fs: Files.FileSystem, paths: seq<string>, i: int)
    requires 0 <= i < |paths|
    ensures Collected(fs, paths[..i + 1]) ==
      Collected(fs, paths[..i]) + (if LoadsDict(fs, paths[i]) then [MakeRecord(fs, paths[i])] else [])
  {
    assert paths[..i + 1] == paths[..i] + [paths[i]];
    FilterAppend(paths[..i], [paths[i]], p => LoadsDict(fs, p));
    MapAppend(Filter(paths[..i], p => LoadsDict(fs, p)), Filter([paths[i]], p => LoadsDict(fs, p)), p => MakeRecord(fs, p));
  }

  /** The loop of `load_analysis_results`: each file that parses to a dict is appended as a record. */
  method CollectRecords(fs: Files.FileSystem, ordered: seq<string>) returns (acc: seq<Record>)
    ensures acc == Collected(fs, ordered)
  {
    acc := [];
    for i := 0 to |ordered|
      invariant acc == Collected(fs, ordered[..i])
    {
      CollectedStep(fs, ordered, i);
      var loaded := Files.LoadJson(fs, ordered[i]);
      if loaded.Some? && loaded.value.Obj? {
        acc := acc + [RecordOf(loaded.value.fields, ordered[i], PathRank(ordered[i]))];
      }
    }
    assert ordered[..|ordered|] == ordered;
  }

  /** `load_analysis_results`: the files in rank order, each loadable one appended as a record, then sorted by rank. */
  method LoadAnalysisResults(fs: Files.FileSystem, cwdListing: seq<string>, dirListing: seq<string>)
    returns (results: Option<seq<Record>>)
    ensures results == LoadedResults(fs, cwdListing, dirListing)
  {
    var candidates := Candidates(fs, cwdListing, dirListing);
    if candidates.None? {
      return None;
    }
    var files := candidates.value;
    if files == [] {
      return Some(SampleData());
    }
    var ranked := AllRanked(files);
    if !ranked {
      return None;
    }
    var ordered := SortBy(files, PathRank);
    var acc := CollectRecords(fs, ordered);
    results := Some(SortBy(acc, RecordRank));
  }

  /** The sort by `int(re.search(...).group(1))`, which raises at the first name without digits. */
  method AllRanked(files: seq<string>) returns (ok: bool)
    ensures ok <==> forall j :: 0 <= j < |files| ==> FileRank(files[j]).Some?
  {
    for k := 0 to |files|
      invariant forall j :: 0 <= j < k ==> FileRank(files[j]).Some?
    {
      if FileRank(files[k]).None? {
        return false;
      }
    }
    return true;
  }

  /** The results are in non-decreasing rank order. */
  lemma LoadedSortedByRank(fs: Files.FileSystem, cwdListing: seq<string>, dirListing: seq<string>)
    requires LoadedResults(fs, cwdListing, dirListing).Some?
    ensures SortedBy(LoadedResults(fs, cwdListing, dirListing).value, RecordRank)
  {
    var files := Candidates(fs, cwdListing, dirListing).value;
    if files != [] {
      SortBySorted(Collected(fs, SortBy(files, PathRank)), RecordRank);
    } else {
      var s := SampleData();
      assert RecordRank(s[0]) == 1 && RecordRank(s[1]) == 2 && RecordRank(s[2]) == 3;
    }
  }

  function SourcePath(r: Record): string
  {
    if r.sourceFile.Some? then r.sourceFile.value else ""
  }

  /**
   * No record is merged away: every loadable result file contributes exactly
   * one record, so two files with the same rank both appear.
   */
  lemma EveryLoadableFileKept(fs: Files.FileSystem, cwdListing: seq<string>, dirListing: seq<string>)
    requires Candidates(fs, cwdListing, dirListing).Some? && Candidates(fs, cwdListing, dirListing).value != []
    requires LoadedResults(fs, cwdListing, dirListing).Some?
    ensures var files := Candidates(fs, cwdListing, dirListing).value;
      multiset(Map(LoadedResults(fs, cwdListing, dirListing).value, SourcePath)) ==
      multiset(Filter(files, p => LoadsDict(fs, p)))
  {
    var files := Candidates(fs, cwdListing, dirListing).value;
    var ordered := SortBy(files, PathRank);
    var records := Collected(fs, ordered);
    var out := LoadedResults(fs, cwdListing, dirListing).value;
    assert out == SortBy(records, RecordRank);
    MapPermutation(out, records, SourcePath);
    CollectedSources(fs, ordered);
    FilterPermutation(ordered, files, p => LoadsDict(fs, p));
  }

  /** Each collected record names the file it came from, in the order of the loadable files. */
  lemma CollectedSources(fs: Files.FileSystem, paths: seq<string>)
    ensures Map(Collected(fs, paths), SourcePath) == Filter(paths, p => LoadsDict(fs, p))
  {
    var kept := Filter(paths, p => LoadsDict(fs, p));
    var records := Collected(fs, paths);
    forall i | 0 <= i < |kept| ensures SourcePath(records[i]) == kept[i] {
      assert kept[i] in kept;
    }
  }

  // ----- rows -----

  datatype Block =
    | Idea(name: Json, features: Json, targetUsers: Json, description: Json)
    | NoIdea  // the fixed text 暂无可行产品创意, with no reason

  /** One table row. The bar widths are `fun_score / 80 * 100` and `useful_score / 20 * 100` percent. */
  datatype Row = Row(rank: Json, title: Json, summary: Json, block: Block, badge: string,
                     totalScore: Json, funScore: Json, usefulScore: Json, funPercent: real, usefulPercent: real)

  /** The product cell; `None` where `product.get` raises (a truthy product that is not a dict). */
  function BlockOf(hasIdea: Json, product: Json): (b: Option<Block>)
    ensures b.Some? && b.value.Idea? <==> Truthy(hasIdea) && Truthy(product) && product.Obj?
    ensures b.Some? && b.value.Idea? ==>
      var p := product.fields;
      b.value == Idea(GetOr(p, "name", Str("未命名产品")), GetOr(p, "features", Str("N/A")),
                      GetOr(p, "target_users", Str("N/A")), GetOr(p, "description", Str("暂无描述")))
    ensures b == Some(NoIdea) <==> !Truthy(hasIdea) || !Truthy(product)
  {
    if !Truthy(hasIdea) || !Truthy(product) then Some(NoIdea)
    else match product
      case Obj(p) =>
        Some(Idea(GetOr(p, "name", Str("未命名产品")), GetOr(p, "features", Str("N/A")),
                  GetOr(p, "target_users", Str("N/A")), GetOr(p, "description", Str("暂无描述"))))
      case _ => None
  }

  /** `r['total_score']` as a comparable number; `None` where comparing it raises. */
  function TotalScore(r: Record): Option<int>
  {
    AsInt(r.totalScore)
  }

  /** The row for one record; `None` where building it raises. */
  function RowOf(r: Record): Option<Row>
  {
    match (TotalScore(r), BlockOf(r.hasIdea, r.product), AsNumber(r.funScore), AsNumber(r.usefulScore))
    case (Some(score), Some(block), Some(fun), Some(useful)) =>
      Some(Row(Int(r.rank), r.title, r.summary, block, BadgeClass(score), r.totalScore,
               r.funScore, r.usefulScore, fun / 80.0 * 100.0, useful / 20.0 * 100.0))
    case _ => None
  }

  /** A row shows its record's cells, the badge of its total score, and the idea block exactly when there is an idea. */
  lemma RowContents(r: Record)
    requires RowOf(r).Some?
    ensures var row := RowOf(r).value;
      row.badge == BadgeClass(TotalScore(r).value) &&
      row.rank == Int(r.rank) && row.title == r.title && row.totalScore == r.totalScore &&
      (row.block.Idea? <==> Truthy(r.hasIdea) && Truthy(r.product))
  {
  }

  /** The rows of `results`, in order; `None` as soon as one record cannot be rendered. */
  function Rows(results: seq<Record>): Option<seq<Row>>
  {
    Traverse(results, RowOf)
  }

  /** `generate_table_rows`: one row per record, in order. */
  method GenerateTableRows(results: seq<Record>) returns (rows: Option<seq<Row>>)
    ensures rows == Rows(results)
  {
    var acc: seq<Row> := [];
    for i := 0 to |results|
      invariant Rows(results[..i]) == Some(acc)
    {
      assert results[..i + 1][..i] == results[..i];
      var row := RowOf(results[i]);
      if row.None? {
        return None;
      }
      acc := acc + [row.value];
    }
    assert results[..|results|] == results;
    return Some(acc);
  }

  /** The total scores of all records, or `None` if one cannot be compared. */
  function TotalScores(results: seq<Record>): (s: Option<seq<int>>)
    ensures s.Some? <==> forall i :: 0 <= i < |results| ==> TotalScore(results[i]).Some?
    ensures s.Some? ==>
      |s.value| == |results| && forall i :: 0 <= i < |results| ==> s.value[i] == TotalScore(results[i]).value
    decreases |results|
  {
    if results == [] then Some([])
    else
      match (TotalScores(results[..|results| - 1]), TotalScore(results[|results| - 1]))
      case (Some(xs), Some(x)) => Some(xs + [x])
      case (None, _) => None
      case (_, None) => None
  }

  // ----- saving -----

  function BackupName(filename: string, now: Clock.DateTime): string
  {
    filename + "." + Clock.CompactStamp(now) + ".backup"
  }

  /**
   * `save_html_report`: an existing report is renamed to its backup name, then
   * the new content is written. Either step raising yields `false`.
   */
  function Saved(fs: Files.FileSystem, content: string, filename: string, now: Clock.DateTime): (bool, Files.FileSystem)
  {
    var backup := BackupName(filename, now);
    if filename in fs.dirs then (false, fs)
    else if filename in fs.files then
      if backup in fs.dirs then (false, fs)
      else (true, fs.(files := (fs.files - {filename})[backup := fs.files[filename]][filename := Files.TextFile(content)]))
    else (true, Files.Write(fs, filename, Files.TextFile(content)))
  }

  /** The rename-then-write sequence of `save_html_report`. */
  method SaveHtmlReport(fs: Files.FileSystem, content: string, filename: string, now: Clock.DateTime)
    returns (ok: bool, fs': Files.FileSystem)
    ensures (ok, fs') == Saved(fs, content, filename, now)
  {
    fs' := fs;
    if filename in fs.dirs {
      return false, fs;
    }
    if filename in fs.files {
      var backup := BackupName(filename, now);
      if backup in fs.dirs {
        return false, fs;
      }
      fs' := fs'.(files := (fs'.files - {filename})[backup := fs.files[filename]]);  // os.rename
    }
    fs' := Files.Write(fs', filename, Files.TextFile(content));
    ok := true;
  }

  /**
   * After a successful save the report holds the new content, the previous
   * report (if any) survives under its backup name, and every other file is
   * untouched; a failed save changes nothing.
   */
  lemma SaveKeepsPrevious(fs: Files.FileSystem, content: string, filename: string, now: Clock.DateTime)
    ensures var (ok, fs') := Saved(fs, content, filename, now);
      var backup := BackupName(filename, now);
      (!ok ==> fs' == fs) &&
      (ok ==> fs'.files[filename] == Files.TextFile(content) && fs'.dirs == fs.dirs &&
              (filename in fs.files ==> backup in fs'.files && fs'.files[backup] == fs.files[filename]) &&
              (forall p :: p in fs.files && p != filename && p != backup ==> p in fs'.files && fs'.files[p] == fs.files[p])) &&
      (ok <==> filename !in fs.dirs && !(filename in fs.files && backup in fs.dirs))
  {
    assert BackupName(filename, now) != filename by {
      assert |BackupName(filename, now)| > |filename|;
    }
  }

  // ----- JSON envelope -----

  /** The dict `json.dump` writes for a record; the sample records have no notes or source file. */
  function ToJson(r: Record): Json
  {
    var base := map["rank" := Int(r.rank), "title" := r.title, "fun_score" := r.funScore,
                    "fun_reason" := r.funReason, "useful_score" := r.usefulScore,
                    "useful_reason" := r.usefulReason, "total_score" := r.totalScore,
                    "has_idea" := r.hasIdea, "product" := r.product, "summary" := r.summary];
    var withNotes := if r.analysisNotes.Some? then base["analysis_notes" := r.analysisNotes.value] else base;
    Obj(if r.sourceFile.Some? then withNotes["source_file" := Str(r.sourceFile.value)] else withNotes)
  }

  /** The report written by `generate_json_report`. */
  function Envelope(results: seq<Record>, now: Clock.DateTime): Json
  {
    Obj(map["metadata" := Obj(map["generated_at" := Str(Clock.IsoFormat(now)),
                                  "total_topics" := Int(|results|),
                                  "score_criteria" := Obj(map["fun_weight" := Real(0.8),
                                                              "useful_weight" := Real(0.2),
                                                              "min_score_for_idea" := Int(60)])]),
            "results" := Arr(Map(results, ToJson))])
  }

  /** `generate_json_report`: `false` when the file cannot be opened. */
  method GenerateJsonReport(fs: Files.FileSystem, results: seq<Record>, filename: string, now: Clock.DateTime)
    returns (ok: bool, fs': Files.FileSystem)
    ensures ok == (filename !in fs.dirs)
    ensures ok ==> fs' == Files.Write(fs, filename, Files.JsonFile(Envelope(results, now)))
    ensures !ok ==> fs' == fs
  {
    if filename in fs.dirs {
      return false, fs;
    }
    var report := Envelope(results, now);
    fs' := Files.Write(fs, filename, Files.JsonFile(report));
    ok := true;
  }

  /**
   * Reading the written report back gives the topic count, the idea threshold
   * of 60 and the records themselves, unchanged and in order.
   */
  lemma EnvelopeReadBack(fs: Files.FileSystem, results: seq<Record>, filename: string, now: Clock.DateTime)
    ensures var j := Files.LoadJson(Files.Write(fs, filename, Files.JsonFile(Envelope(results, now))), filename);
      j.Some? && j.value.Obj? && "metadata" in j.value.fields && "results" in j.value.fields &&
      var meta := j.value.fields["metadata"];
      meta.Obj? && meta.fields["total_topics"] == Int(|results|) &&
      meta.fields["score_criteria"].Obj? && meta.fields["score_criteria"].fields["min_score_for_idea"] == Int(60) &&
      var items := j.value.fields["results"];
      items.Arr? && |items.items| == |results| &&
      forall i :: 0 <= i < |results| ==> items.items[i] == ToJson(results[i])
  {
  }

  // ----- main -----

  /** The tree after writing the JSON envelope (unchanged if that fails). */
  function JsonWritten(fs: Files.FileSystem, results: seq<Record>, now: Clock.DateTime): Files.FileSystem
  {
    if JsonReportFile in fs.dirs then fs
    else Files.Write(fs, JsonReportFile, Files.JsonFile(Envelope(results, now)))
  }

  /**
   * `main`: a crash while loading or building rows ends the script; an empty
   * result list exits 1 with nothing written; otherwise the page is saved and
   * the envelope written, each failing on its own without changing the exit
   * code 0.
   */
  method RunScript(fs: Files.FileSystem, cwdListing: seq<string>, dirListing: seq<string>, now: Clock.DateTime,
              render: (seq<Row>, Stats, Clock.DateTime) -> string)
    returns (run: Run, fs': Files.FileSystem)
    ensures LoadedResults(fs, cwdListing, dirListing).None? ==> run == Crashed && fs' == fs
    ensures LoadedResults(fs, cwdListing, dirListing) == Some([]) ==> run == Exited(1) && fs' == fs
    ensures run == Exited(0) <==>
      var loaded := LoadedResults(fs, cwdListing, dirListing);
      loaded.Some? && loaded.value != [] && TotalScores(loaded.value).Some? && Rows(loaded.value).Some?
    ensures run == Exited(0) ==>
      var results := LoadedResults(fs, cwdListing, dirListing).value;
      var html := render(Rows(results).value, CalculateStats(TotalScores(results).value), now);
      fs' == JsonWritten(Saved(fs, html, ReportFile, now).1, results, now)
    ensures run != Exited(0) ==> fs' == fs
  {
    var loaded := LoadAnalysisResults(fs, cwdListing, dirListing);
    if loaded.None? {
      return Crashed, fs;
    }
    var results := loaded.value;
    if results == [] {
      return Exited(1), fs;
    }
    var scores := TotalScores(results);
    if scores.None? {
      return Crashed, fs;
    }
    var stats := CalculateStats(scores.value);
    var rows := GenerateTableRows(results);
    if rows.None? {
      return Crashed, fs;
    }
    var html := render(rows.value, stats, now);
    var saved, fs1 := SaveHtmlReport(fs, html, ReportFile, now);
    var written, fs2 := GenerateJsonReport(fs1, results, JsonReportFile, now);
    return Exited(0), fs2;
  }
}
