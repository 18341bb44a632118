/**
 * The enhanced report (`generate_final_enhanced_report.py`): the merged
 * results together with the deep-dive analyses. Each row is the Apple-style
 * row, plus a deep-dive badge when the topic's title has a deep-dive entry,
 * plus, inside an idea block, one item per analysed dimension.
 */
module EnhancedReport {
  import opened Wrappers
  import opened PyJson
  import opened Scores
  import Files
  import Clock
  import AppleReport

  const BaseFile := "hotspot_analysis_results.json"
  const DeepFile := "deep_dive_analysis.json"
  const OutputDir := "output"

  /** `load_data`: both files are opened and parsed with nothing catching a failure. */
  function LoadData(fs: Files.FileSystem): (r: Option<(Json, Json)>)
    ensures r.Some? <==> Files.LoadJson(fs, BaseFile).Some? && Files.LoadJson(fs, DeepFile).Some?
  {
    match (Files.LoadJson(fs, BaseFile), Files.LoadJson(fs, DeepFile))
    case (Some(base), Some(deep)) => Some((base, deep))
    case _ => None
  }

  // ----- statistics -----

  datatype EnhancedStats = EnhancedStats(base: Stats, deepDiveCount: nat, qualifiedCount: nat)

  /** A record whose `has_idea` is present and truthy. */
  predicate HasIdea(r: Json)
  {
    r.Obj? && "has_idea" in r.fields && Truthy(r.fields["has_idea"])
  }

  function QualifiedCount(results: seq<Json>): nat
    decreases |results|
  {
    if results == [] then 0
    else QualifiedCount(results[..|results| - 1]) + (if HasIdea(results[|results| - 1]) then 1 else 0)
  }

  predicate AllHaveIdeaKey(results: seq<Json>)
  {
    forall i :: 0 <= i < |results| ==> results[i].Obj? && "has_idea" in results[i].fields
  }

  /** `calculate_stats`; `None` where a record has no comparable total score or no `has_idea`. */
  function CalculateStats(results: seq<Json>): (st: Option<EnhancedStats>)
    ensures st.Some? <==> RecordScores(results).Some? && AllHaveIdeaKey(results)
    ensures st.Some? ==> st.value.base == Scores.CalculateStats(RecordScores(results).value)
  {
    match RecordScores(results)
    case None => None
    case Some(scores) =>
      if !AllHaveIdeaKey(results) then None
      else
        var base := Scores.CalculateStats(scores);
        Some(EnhancedStats(base, base.highScoreCount, QualifiedCount(results)))
  }

  /** The dimensions card: three per deep-dived topic. */
  function DimensionCount(st: EnhancedStats): nat
  {
    st.deepDiveCount * 3
  }

  /** The positions of the records whose `has_idea` is truthy. */
  function IdeaIndices(results: seq<Json>): set<int>
  {
    set i | 0 <= i < |results| && HasIdea(results[i])
  }

  /** Appending a record adds its position exactly when it has an idea. */
  lemma IdeaIndicesSnoc(p: seq<Json>, last: Json)
    ensures IdeaIndices(p + [last]) == IdeaIndices(p) + (if HasIdea(last) then {|p|} else {})
    ensures |p| !in IdeaIndices(p)
  {
    var s := p + [last];
    assert forall i :: 0 <= i < |p| ==> s[i] == p[i];
  }

  lemma {:induction false} QualifiedIsIdeaCount(results: seq<Json>)
    ensures QualifiedCount(results) == |IdeaIndices(results)|
    decreases |results|
  {
    if results != [] {
      var p := results[..|results| - 1];
      QualifiedIsIdeaCount(p);
      assert results == p + [results[|p|]];
      IdeaIndicesSnoc(p, results[|p|]);
    }
  }

  lemma {:induction false} QualifiedAtMost(results: seq<Json>)
    ensures QualifiedCount(results) <= |results|
    decreases |results|
  {
    if results != [] {
      QualifiedAtMost(results[..|results| - 1]);
    }
  }

  /**
   * The deep-dive count is the high-score count (taken as given, not counted),
   * the dimensions card shows three times that, and the qualified count is
   * the number of records with a truthy `has_idea`, at most the topic count.
   */
  lemma StatsMeaning(results: seq<Json>)
    requires CalculateStats(results).Some?
    ensures var st := CalculateStats(results).value;
      st.deepDiveCount == st.base.highScoreCount &&
      DimensionCount(st) == 3 * st.base.highScoreCount &&
      st.qualifiedCount == |IdeaIndices(results)| &&
      st.qualifiedCount <= st.base.totalTopics
  {
    QualifiedIsIdeaCount(results);
    QualifiedAtMost(results);
  }

  // ----- the deep-dive map -----

  /** A value as a dict key, equal keys merged as Python merges them (`True == 1`); `None` when unhashable. */
  function PyKey(j: Json): Option<Json>
  {
    match j
    case Bool(b) => Some(Int(if b then 1 else 0))
    case Real(r) => if r == r.Floor as real then Some(Int(r.Floor)) else Some(j)
    case Arr(_) => None
    case Obj(_) => None
    case _ => Some(j)
  }

  /** `item['topic']['title']` as a key; `None` where that raises. */
  function TitleKey(item: Json): Option<Json>
  {
    if item.Obj? && "topic" in item.fields && item.fields["topic"].Obj? && "title" in item.fields["topic"].fields
    then PyKey(item.fields["topic"].fields["title"])
    else None
  }

  /** `{item['topic']['title']: item for item in deep_results}`: a later item with the same title replaces an earlier one. */
  function DeepMap(items: seq<Json>): Option<map<Json, Json>>
    decreases |items|
  {
    if items == [] then Some(map[])
    else
      var last := items[|items| - 1];
      match (DeepMap(items[..|items| - 1]), TitleKey(last))
      case (Some(m), Some(k)) => Some(m[k := last])
      case _ => None
  }

  /** Item `i` is the last one with title key `k`. */
  ghost predicate LastWithTitle(items: seq<Json>, k: Json, i: int)
  {
    0 <= i < |items| && TitleKey(items[i]) == Some(k) &&
    forall j :: i < j < |items| ==> TitleKey(items[j]) != Some(k)
  }

  /** The map is built exactly when every item has a hashable title. */
  lemma {:induction false} DeepMapDefined(items: seq<Json>)
    ensures DeepMap(items).Some? <==> forall i :: 0 <= i < |items| ==> TitleKey(items[i]).Some?
    decreases |items|
  {
    if items != [] {
      var p := items[..|items| - 1];
      DeepMapDefined(p);
      assert forall i :: 0 <= i < |p| ==> items[i] == p[i];
    }
  }

  /** In a built map, the keys are the titles present, each mapped to the last item carrying it. */
  lemma {:induction false} DeepMapKeys(items: seq<Json>, k: Json)
    requires DeepMap(items).Some?
    ensures k in DeepMap(items).value <==> exists i :: 0 <= i < |items| && TitleKey(items[i]) == Some(k)
    ensures k in DeepMap(items).value ==> exists i :: LastWithTitle(items, k, i) && DeepMap(items).value[k] == items[i]
    decreases |items|
  {
    if items != [] {
      var p := items[..|items| - 1];
      var n := |items| - 1;
      var m := DeepMap(p).value;
      DeepMapKeys(p, k);
      assert forall i :: 0 <= i < n ==> items[i] == p[i];
      assert DeepMap(items).value == m[TitleKey(items[n]).value := items[n]];
      if TitleKey(items[n]) == Some(k) {
        assert LastWithTitle(items, k, n);
      } else if k in m {
        var i :| LastWithTitle(p, k, i) && m[k] == p[i];
        assert LastWithTitle(items, k, i);
      }
    }
  }

  /** The map is built when every item has a hashable title; each title maps to the last item carrying it. */
  lemma DeepMapLastWins(items: seq<Json>, k: Json)
    ensures DeepMap(items).Some? <==> forall i :: 0 <= i < |items| ==> TitleKey(items[i]).Some?
    ensures DeepMap(items).Some? ==>
      (k in DeepMap(items).value <==> exists i :: 0 <= i < |items| && TitleKey(items[i]) == Some(k)) &&
      (k in DeepMap(items).value ==> exists i :: LastWithTitle(items, k, i) && DeepMap(items).value[k] == items[i])
  {
    DeepMapDefined(items);
    if DeepMap(items).Some? {
      DeepMapKeys(items, k);
    }
  }

  // ----- rows -----

  datatype Dimension = Dimension(dimension: Json, coreFunction: Json, targetUsers: Json, uniqueValue: Json)

  function DimensionOf(d: Json): Option<Dimension>
  {
    if d.Obj? && "dimension" in d.fields && "core_function" in d.fields &&
       "target_users" in d.fields && "unique_value" in d.fields
    then Some(Dimension(d.fields["dimension"], d.fields["core_function"],
                        d.fields["target_users"], d.fields["unique_value"]))
    else None
  }

  /** The dimension items, one per element of `dimensions`, in list order. */
  function Dimensions(ds: seq<Json>): (r: Option<seq<Dimension>>)
    ensures r.Some? <==> forall i :: 0 <= i < |ds| ==> DimensionOf(ds[i]).Some?
    ensures r.Some? ==> |r.value| == |ds| && forall i :: 0 <= i < |ds| ==> r.value[i] == DimensionOf(ds[i]).value
    decreases |ds|
  {
    if ds == [] then Some([])
    else
      match (Dimensions(ds[..|ds| - 1]), DimensionOf(ds[|ds| - 1]))
      case (Some(xs), Some(x)) => Some(xs + [x])
      case (None, _) => None
      case (_, None) => None
  }

  /** The deep-dive section for an entry; `None` where reading its dimensions raises. */
  function DeepSection(entry: Json): Option<seq<Dimension>>
  {
    if entry.Obj? && "dimensions" in entry.fields then
      match Elements(entry.fields["dimensions"])
      case Some(ds) => Dimensions(ds)
      case None => None
    else None
  }

  /** An Apple-style row, the deep-dive badge flag, and the deep-dive section inside an idea block. */
  datatype Row = Row(base: AppleReport.Row, deepBadge: bool, deep: Option<seq<Dimension>>)

  /** The row for one record; `None` where building it raises. */
  function RowOf(r: Json, deepMap: map<Json, Json>): Option<Row>
  {
    match AppleReport.RowOf(r)
    case None => None
    case Some(base) =>
      match PyKey(r.fields["title"])
      case None => None
      case Some(key) =>
        var isDeep := key in deepMap;
        if base.block.Product? && isDeep then
          match DeepSection(deepMap[key])
          case Some(dims) => Some(Row(base, true, Some(dims)))
          case None => None
        else Some(Row(base, isDeep, None))
  }

  /**
   * The badge appears whenever the title has an entry, idea or not; the
   * section only inside an idea block whose title has an entry, with the
   * entry's dimensions in order.
   */
  lemma RowDeepParts(r: Json, deepMap: map<Json, Json>)
    requires RowOf(r, deepMap).Some?
    ensures var row := RowOf(r, deepMap).value;
      var key := PyKey(r.fields["title"]).value;
      AppleReport.RowOf(r) == Some(row.base) &&
      (row.deepBadge <==> key in deepMap) &&
      (row.deep.Some? <==> row.base.block.Product? && key in deepMap) &&
      (row.deep.Some? ==> Some(row.deep.value) == DeepSection(deepMap[key]))
  {
  }

  /** The rows of `results` against one deep-dive map; `None` as soon as one record cannot be rendered. */
  function Rows(results: seq<Json>, deepMap: map<Json, Json>): Option<seq<Row>>
  {
    Traverse(results, r => RowOf(r, deepMap))
  }

  /** `generate_table_rows`: the deep-dive map, then one row per record in order. */
  method GenerateTableRows(results: seq<Json>, deepResults: seq<Json>) returns (rows: Option<seq<Row>>)
    ensures DeepMap(deepResults).None? ==> rows.None?
    ensures DeepMap(deepResults).Some? ==> rows == Rows(results, DeepMap(deepResults).value)
  {
    var deepMap := DeepMap(deepResults);
    if deepMap.None? {
      return None;
    }
    var acc: seq<Row> := [];
    for i := 0 to |results|
      invariant Rows(results[..i], deepMap.value) == Some(acc)
    {
      assert results[..i + 1][..i] == results[..i];
      var row := RowOf(results[i], deepMap.value);
      if row.None? {
        return None;
      }
      acc := acc + [row.value];
    }
    assert results[..|results|] == results;
    return Some(acc);
  }

  // ----- main -----

  datatype Page = Page(rows: seq<Row>, stats: EnhancedStats)

  /** Statistics and rows for the two loaded documents; `None` where computing them raises. */
  function PageOf(base: Json, deep: Json): Option<Page>
  {
    var results := Elements(base);
    var deepResults := Elements(deep);
    if results.None? || deepResults.None? then None
    else
      var stats := CalculateStats(results.value);
      var deepMap := DeepMap(deepResults.value);
      if stats.None? || deepMap.None? then None
      else
        var rows := Rows(results.value, deepMap.value);
        if rows.None? then None else Some(Page(rows.value, stats.value))
  }

  function OutputPath(now: Clock.DateTime): string
  {
    OutputDir + "/weibo_hotspot_analysis_enhanced_" + Clock.CompactMinute(now) + ".html"
  }

  /**
   * `main`: a missing or unparseable input, or a record that cannot be
   * rendered, ends the script uncaught. There is no emptiness check: an empty
   * result list still produces a page. The exit code is 1 only when the page
   * cannot be written.
   */
  method RunScript(fs: Files.FileSystem, now: Clock.DateTime, render: (seq<Row>, EnhancedStats) -> string)
    returns (run: Run, fs': Files.FileSystem)
    ensures (LoadData(fs).None? || PageOf(LoadData(fs).value.0, LoadData(fs).value.1).None?) ==>
      run == Crashed && fs' == fs
    ensures LoadData(fs).Some? && PageOf(LoadData(fs).value.0, LoadData(fs).value.1).Some? ==>
      var page := PageOf(LoadData(fs).value.0, LoadData(fs).value.1).value;
      var dir := Files.EnsureDir(fs, OutputDir);
      if Files.CanCreate(dir, OutputDir, OutputPath(now)) then
        run == Exited(0) &&
        fs' == Files.Write(dir, OutputPath(now), Files.TextFile(render(page.rows, page.stats)))
      else run == Exited(1) && fs' == dir
  {
    var loaded := LoadData(fs);
    if loaded.None? {
      return Crashed, fs;
    }
    var (base, deep) := loaded.value;
    var results := Elements(base);
    var deepResults := Elements(deep);
    if results.None? || deepResults.None? {
      return Crashed, fs;
    }
    var stats := CalculateStats(results.value);
    if stats.None? {
      return Crashed, fs;
    }
    var rows := GenerateTableRows(results.value, deepResults.value);
    if rows.None? {
      return Crashed, fs;
    }
    var html := render(rows.value, stats.value);
    fs' := Files.EnsureDir(fs, OutputDir);
    var path := OutputPath(now);
    if !Files.CanCreate(fs', OutputDir, path) {
      return Exited(1), fs';
    }
    fs' := Files.Write(fs', path, Files.TextFile(html));
    run := Exited(0);
  }
}
