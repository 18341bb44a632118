/**
 * The Apple-style report (`generate_apple_style_report.py`): load the merged
 * analysis results, copy `score` into `total_score` where only the former is
 * present, compute the statistics block and build one table row per record.
 * Rows are modelled by their content; the HTML page around them is a
 * function `render` of the rows and statistics that the model takes as given.
 */
module AppleReport {
  import opened Wrappers
  import opened PyJson
  import opened Text
  import opened Scores
  import Files
  import Clock

  const AnalysisFile := "hotspot_analysis_results.json"
  const OutputDir := "output"
  const DefaultReason := "总分未达60分阈值"

  /** `get_score_badge_class`. */
  function BadgeClass(score: int): (c: string)
    ensures c == "score-excellent" <==> score >= 80
    ensures c == "score-good" <==> 60 <= score < 80
    ensures c == "score-fair" <==> score < 60
  {
    match TierOf(score)
    case Top => "score-excellent"
    case Middle => "score-good"
    case Bottom => "score-fair"
  }

  // ----- loading -----

  /** A dict record with `score` and no `total_score` gains `total_score`; any other dict is unchanged. */
  function Filled(m: Dict): (r: Dict)
    ensures "score" in m && "total_score" !in m ==> r == m["total_score" := m["score"]]
    ensures !("score" in m && "total_score" !in m) ==> r == m
  {
    if "score" in m && "total_score" !in m then m["total_score" := m["score"]] else m
  }

  /**
   * One pass of the loader's loop body on an element; `None` where `in` or the
   * item assignment raises (a non-container, or a string that contains
   * `score` but not `total_score`).
   */
  function FillOne(r: Json): Option<Json>
  {
    match Contains(r, "score")
    case None => None
    case Some(hasScore) =>
      if !hasScore || Contains(r, "total_score") == Some(true) then Some(r)
      else if r.Obj? then Some(Obj(Filled(r.fields)))
      else None
  }

  /**
   * The loop over whatever `json.load` returned. A dict is iterated by its
   * keys and a string by its characters (a one-character string never holds
   * `score`); numbers, booleans and null are not iterable.
   */
  function Normalized(j: Json): Option<Json>
  {
    match j
    case Arr(items) =>
      if forall i :: 0 <= i < |items| ==> FillOne(items[i]).Some? then
        Some(Arr(seq(|items|, i requires 0 <= i < |items| => FillOne(items[i]).value)))
      else None
    case Obj(m) =>
      if exists k :: k in m && IsSubstring("score", k) && !IsSubstring("total_score", k) then None
      else Some(j)
    case Str(_) => Some(j)
    case _ => None
  }

  /** What `load_analysis_results` returns: any failure yields the empty list. */
  function Loaded(fs: Files.FileSystem): Json
  {
    if !Files.Exists(fs, AnalysisFile) then Arr([])
    else match Files.LoadJson(fs, AnalysisFile)
      case None => Arr([])
      case Some(j) =>
        match Normalized(j)
        case None => Arr([])
        case Some(n) => n
  }

  /** `load_analysis_results`, updating the list's records in place. */
  method LoadAnalysisResults(fs: Files.FileSystem) returns (results: Json)
    ensures results == Loaded(fs)
  {
    if !Files.Exists(fs, AnalysisFile) {
      return Arr([]);
    }
    var loaded := Files.LoadJson(fs, AnalysisFile);
    if loaded.None? {
      return Arr([]);
    }
    if !loaded.value.Arr? {
      var n := Normalized(loaded.value);
      return if n.Some? then n.value else Arr([]);
    }
    var original := loaded.value.items;
    var items := original;
    var i := 0;
    while i < |items|
      invariant 0 <= i <= |items| == |original|
      invariant forall k :: 0 <= k < i ==> FillOne(original[k]).Some? && items[k] == FillOne(original[k]).value
      invariant forall k :: i <= k < |items| ==> items[k] == original[k]
    {
      var filled := FillOne(items[i]);
      if filled.None? {
        return Arr([]);
      }
      items := items[i := filled.value];
      i := i + 1;
    }
    results := Arr(items);
  }

  /** For a list of dicts, the loader adds `total_score` exactly where `score` is present and `total_score` absent. */
  lemma LoadFillsTotalScore(fs: Files.FileSystem, records: seq<Dict>)
    requires Files.LoadJson(fs, AnalysisFile) == Some(Arr(seq(|records|, i requires 0 <= i < |records| => Obj(records[i]))))
    ensures Loaded(fs).Arr? && |Loaded(fs).items| == |records|
    ensures forall i :: 0 <= i < |records| ==> Loaded(fs).items[i] == Obj(Filled(records[i]))
  {
    var items := seq(|records|, i requires 0 <= i < |records| => Obj(records[i]));
    assert forall i :: 0 <= i < |items| ==> FillOne(items[i]) == Some(Obj(Filled(records[i])));
  }

  /** A missing, unreadable or empty results file all load as something falsy, on which `main` gives up. */
  lemma EmptyOrMissingIsFalsy(fs: Files.FileSystem)
    requires !Files.Exists(fs, AnalysisFile) || Files.LoadJson(fs, AnalysisFile).None? ||
             Files.LoadJson(fs, AnalysisFile) == Some(Arr([]))
    ensures !Truthy(Loaded(fs))
  {
  }

  // ----- rows -----

  datatype ProductBlock =
    | Product(name: Json, features: Json, targetUsers: Json, description: Json)
    | NoIdea(reason: Json)

  /** One table row: what each cell shows. `heat` is the thousands-separated text. */
  datatype Row = Row(dataScore: Json, rank: Json, title: Json, heat: string, summary: Json,
                     block: ProductBlock, badge: string, funScore: Json, usefulScore: Json)

  /** The product cell; `None` where `result['has_idea']`, `result['product']` or `product.get` raises. */
  function BlockOf(r: Dict): (b: Option<ProductBlock>)
    ensures b.Some? && b.value.Product? <==>
      "has_idea" in r && Truthy(r["has_idea"]) && "product" in r && Truthy(r["product"]) && r["product"].Obj?
    ensures b.Some? && b.value.Product? ==>
      var p := r["product"].fields;
      b.value == Product(GetOr(p, "name", Str("未命名产品")), GetOr(p, "features", Str("N/A")),
                         GetOr(p, "target_users", Str("N/A")), GetOr(p, "description", Str("暂无描述")))
    ensures b.Some? && b.value.NoIdea? <==>
      "has_idea" in r && (!Truthy(r["has_idea"]) || ("product" in r && !Truthy(r["product"])))
    ensures b.Some? && b.value.NoIdea? ==> b.value.reason == GetOr(r, "reason", Str(DefaultReason))
  {
    if "has_idea" !in r then None
    else if !Truthy(r["has_idea"]) then Some(NoIdea(GetOr(r, "reason", Str(DefaultReason))))
    else if "product" !in r then None
    else if !Truthy(r["product"]) then Some(NoIdea(GetOr(r, "reason", Str(DefaultReason))))
    else match r["product"]
      case Obj(p) =>
        Some(Product(GetOr(p, "name", Str("未命名产品")), GetOr(p, "features", Str("N/A")),
                     GetOr(p, "target_users", Str("N/A")), GetOr(p, "description", Str("暂无描述"))))
      case _ => None
  }

  /** `f"{heat:,}"`, which only an integer can take. */
  function HeatText(heat: Json): Option<string>
  {
    match AsInt(heat)
    case Some(h) => Some(Thousands(h))
    case None => None
  }

  predicate HasRowFields(m: Dict)
  {
    "rank" in m && "title" in m && "summary" in m && "fun_score" in m && "useful_score" in m
  }

  /** The row for one record; `None` where building it raises. */
  function RowOf(r: Json): Option<Row>
  {
    match RecordScore(r)
    case None => None
    case Some(score) =>
      var m := r.fields;
      match (BlockOf(m), HeatText(GetOr(m, "heat", Str("N/A"))))
      case (Some(block), Some(heat)) =>
        if HasRowFields(m) then
          Some(Row(m["total_score"], m["rank"], m["title"], heat, m["summary"], block,
                   BadgeClass(score), m["fun_score"], m["useful_score"]))
        else None
      case _ => None
  }

  /** What a built row shows: the record's own score, badge tier and cells. */
  lemma RowContents(r: Json)
    requires RowOf(r).Some?
    ensures var row := RowOf(r).value;
      r.Obj? && row.dataScore == r.fields["total_score"] &&
      row.badge == BadgeClass(RecordScore(r).value) &&
      row.rank == r.fields["rank"] && row.title == r.fields["title"] &&
      Some(row.block) == BlockOf(r.fields)
  {
  }

  /**
   * Heat must be an integer: a record whose heat is missing (so the `'N/A'`
   * default is used) or not a number cannot be rendered. When it renders,
   * removing the separators gives back the heat's digits.
   */
  lemma HeatMustBeInteger(r: Json)
    requires r.Obj?
    ensures AsInt(GetOr(r.fields, "heat", Str("N/A"))).None? ==> RowOf(r).None?
    ensures RowOf(r).Some? && AsInt(GetOr(r.fields, "heat", Str("N/A"))).value >= 0 ==>
      var h := AsInt(GetOr(r.fields, "heat", Str("N/A"))).value;
      AllDigits(Uncomma(RowOf(r).value.heat)) && DigitsValue(Uncomma(RowOf(r).value.heat)) == h
  {
    var heat := AsInt(GetOr(r.fields, "heat", Str("N/A")));
    if RowOf(r).Some? && heat.value >= 0 {
      GroupedDigits(heat.value);
    }
  }

  /** The rows of `results`, built in order; `None` as soon as one record cannot be rendered. */
  function Rows(results: seq<Json>): Option<seq<Row>>
  {
    Traverse(results, RowOf)
  }

  /** `generate_table_rows`: one row per record, appended in input order. */
  method GenerateTableRows(results: seq<Json>) returns (rows: Option<seq<Row>>)
    ensures rows == Rows(results)
  {
    var acc: seq<Row> := [];
    for i := 0 to |results|
      invariant Rows(results[..i]) == Some(acc)
    {
      var row := RowOf(results[i]);
      if row.None? {
        assert results[..i + 1][..i] == results[..i];
        return None;
      }
      assert results[..i + 1][..i] == results[..i];
      acc := acc + [row.value];
    }
    assert results[..|results|] == results;
    return Some(acc);
  }

  // ----- main -----

  /** The statistics and rows the page is rendered from. */
  datatype Page = Page(rows: seq<Row>, stats: Stats)

  /** Statistics and rows for what the loader returned; `None` where computing them raises. */
  function PageOf(results: Json): Option<Page>
  {
    if !results.Arr? then None
    else match (RecordScores(results.items), Rows(results.items))
      case (Some(scores), Some(rows)) => Some(Page(rows, CalculateStats(scores)))
      case _ => None
  }

  function OutputPath(now: Clock.DateTime): string
  {
    OutputDir + "/weibo_hotspot_analysis_apple_" + Clock.CompactMinute(now) + ".html"
  }

  /**
   * `main`: exit 1 with nothing written when the loader returns nothing;
   * otherwise the page is written under `output/`, named by the minute, and
   * the exit code is 0, or 1 if the file cannot be opened.
   */
  method RunScript(fs: Files.FileSystem, now: Clock.DateTime, render: (seq<Row>, Stats) -> string)
    returns (run: Run, fs': Files.FileSystem)
    ensures !Truthy(Loaded(fs)) ==> run == Exited(1) && fs' == fs
    ensures Truthy(Loaded(fs)) && PageOf(Loaded(fs)).None? ==> run == Crashed && fs' == fs
    ensures Truthy(Loaded(fs)) && PageOf(Loaded(fs)).Some? ==>
      var page := PageOf(Loaded(fs)).value;
      var dir := Files.EnsureDir(fs, OutputDir);
      if Files.CanCreate(dir, OutputDir, OutputPath(now)) then
        run == Exited(0) &&
        fs' == Files.Write(dir, OutputPath(now), Files.TextFile(render(page.rows, page.stats)))
      else run == Exited(1) && fs' == dir
  {
    var results := LoadAnalysisResults(fs);
    if !Truthy(results) {
      return Exited(1), fs;
    }
    if !results.Arr? {
      return Crashed, fs;
    }
    var scores := RecordScores(results.items);
    if scores.None? {
      return Crashed, fs;
    }
    var stats := CalculateStats(scores.value);
    var rows := GenerateTableRows(results.items);
    if rows.None? {
      return Crashed, fs;
    }
    var html := render(rows.value, stats);
    fs' := Files.EnsureDir(fs, OutputDir);
    var path := OutputPath(now);
    if !Files.CanCreate(fs', OutputDir, path) {
      return Exited(1), fs';
    }
    fs' := Files.Write(fs', path, Files.TextFile(html));
    run := Exited(0);
  }
}
