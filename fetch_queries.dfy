/**
 * Turning the hot-search list into search queries (`generate_search_queries`
 * in `fetch_weibo_hotspot.py`). Only the first `max_items` entries are
 * looked at. An entry's title is its `note`, else its `word`, and an entry
 * with neither is skipped. The rank is the entry's 1-based position, and
 * the search text names the current month. The clock is a parameter.
 */
module FetchQueries {
  import opened Wrappers
  import opened PyJson
  import opened Sorting
  import Clock

  /** One entry of `queries`. */
  datatype Query = Query(rank: int, title: Json, heat: Json, category: Json, labelName: Json,
                         searchQuery: string, raw: Json)

  /** `item.get('note', '') or item.get('word', '')`. */
  function TitleOf(d: Dict): Json
  {
    Or(GetOr(d, "note", Str("")), GetOr(d, "word", Str("")))
  }

  /** `f"{title} 微博热搜 {current_month}"`. */
  function SearchText(title: Json, month: string, show: Json -> string): string
  {
    PyStr(title, show) + " 微博热搜 " + month
  }

  /**
   * What the entry at 1-based position `rank` adds: one query, nothing when
   * it has no title, or `None` where `item.get` raises (the entry is not a
   * dict).
   */
  function QueryAt(item: Json, rank: int, month: string, show: Json -> string): (r: Option<seq<Query>>)
    ensures r.Some? <==> item.Obj?
    ensures r.Some? ==> |r.value| <= 1 && (r.value != [] <==> Truthy(TitleOf(item.fields)))
    ensures r.Some? && r.value != [] ==> r.value[0].rank == rank
  {
    if !item.Obj? then None
    else
      var d := item.fields;
      var title := TitleOf(d);
      if !Truthy(title) then Some([])
      else
        Some([Query(rank, title, GetOr(d, "num", Str("N/A")), GetOr(d, "category", Str("")),
                    GetOr(d, "label_name", Str("")), SearchText(title, month, show), item)])
  }

  /** The queries for `items`, entry `i` having rank `i + 1`; `None` where the loop raises. */
  function Generated(items: seq<Json>, month: string, show: Json -> string): Option<seq<Query>>
    decreases |items|
  {
    if items == [] then Some([])
    else
      match (Generated(items[..|items| - 1], month, show), QueryAt(items[|items| - 1], |items|, month, show))
      case (Some(qs), Some(q)) => Some(qs + q)
      case _ => None
  }

  /** `generate_search_queries(hotspots, max_items)` at time `now`. */
  function GenerateQueries(hotspots: seq<Json>, maxItems: int, now: Clock.DateTime, show: Json -> string): Option<seq<Query>>
  {
    Generated(SliceTo(hotspots, maxItems), Clock.MonthText(now), show)
  }

  /** The loop raises exactly when some entry is not a dict. */
  lemma {:induction false} GeneratedRaises(items: seq<Json>, month: string, show: Json -> string)
    ensures Generated(items, month, show).Some? <==> forall i :: 0 <= i < |items| ==> items[i].Obj?
    decreases |items|
  {
    if items != [] {
      var init := items[..|items| - 1];
      GeneratedRaises(init, month, show);
      assert forall i :: 0 <= i < |init| ==> init[i] == items[i];
    }
  }

  /** A built query list is the list for all but the last entry followed by the last entry's query. */
  lemma GeneratedSnoc(items: seq<Json>, month: string, show: Json -> string)
    requires items != [] && Generated(items, month, show).Some?
    ensures var n := |items|;
      Generated(items[..n - 1], month, show).Some? && QueryAt(items[n - 1], n, month, show).Some? &&
      Generated(items, month, show).value ==
        Generated(items[..n - 1], month, show).value + QueryAt(items[n - 1], n, month, show).value
  {
  }

  /** Every query has a rank in 1..|items| and is the one the entry at its rank yields. */
  ghost predicate QueriesFrom(items: seq<Json>, qs: seq<Query>, month: string, show: Json -> string)
  {
    forall k :: 0 <= k < |qs| ==>
      1 <= qs[k].rank <= |items| && QueryAt(items[qs[k].rank - 1], qs[k].rank, month, show) == Some([qs[k]])
  }

  /** Appending an entry and its queries keeps every query tied to its entry. */
  lemma QueriesFromSnoc(init: seq<Json>, x: Json, qs: seq<Query>, last: seq<Query>, month: string, show: Json -> string)
    requires QueriesFrom(init, qs, month, show) && QueryAt(x, |init| + 1, month, show) == Some(last)
    ensures QueriesFrom(init + [x], qs + last, month, show)
  {
    var items, r := init + [x], qs + last;
    forall k | 0 <= k < |r|
      ensures 1 <= r[k].rank <= |items| && QueryAt(items[r[k].rank - 1], r[k].rank, month, show) == Some([r[k]])
    {
      if k < |qs| {
        assert r[k] == qs[k];
        assert items[qs[k].rank - 1] == init[qs[k].rank - 1];
      } else {
        assert r[k] == last[0] && last == [last[0]];
      }
    }
  }

  /**
   * There is at most one query per entry; ranks lie in 1..|items|, and each
   * query is the one the entry at its rank yields.
   */
  lemma {:induction false} GeneratedFrom(items: seq<Json>, month: string, show: Json -> string)
    ensures Generated(items, month, show).Some? ==>
      |Generated(items, month, show).value| <= |items| &&
      QueriesFrom(items, Generated(items, month, show).value, month, show)
    decreases |items|
  {
    if items != [] && Generated(items, month, show).Some? {
      var n := |items|;
      var init := items[..n - 1];
      GeneratedFrom(init, month, show);
      GeneratedSnoc(items, month, show);
      assert items == init + [items[n - 1]];
      QueriesFromSnoc(init, items[n - 1], Generated(init, month, show).value,
                      QueryAt(items[n - 1], n, month, show).value, month, show);
    }
  }

  /** Ranks strictly increase along the output. */
  lemma {:induction false} GeneratedIncreasing(items: seq<Json>, month: string, show: Json -> string)
    ensures Generated(items, month, show).Some? ==>
      var qs := Generated(items, month, show).value;
      forall k, l :: 0 <= k < l < |qs| ==> qs[k].rank < qs[l].rank
    decreases |items|
  {
    if items != [] && Generated(items, month, show).Some? {
      var n := |items|;
      var init := items[..n - 1];
      GeneratedIncreasing(init, month, show);
      GeneratedFrom(init, month, show);
      var qs := Generated(init, month, show).value;
      var last := QueryAt(items[n - 1], n, month, show).value;
      GeneratedSnoc(items, month, show);
      var r := Generated(items, month, show).value;
      forall k, l | 0 <= k < l < |r|
        ensures r[k].rank < r[l].rank
      {
        assert r[k] == qs[k];
        if l >= |qs| {
          assert r[l] == last[0];
        } else {
          assert r[l] == qs[l];
        }
      }
    }
  }

  /** Every entry with a title yields a query with its rank. */
  lemma {:induction false} GeneratedComplete(items: seq<Json>, month: string, show: Json -> string)
    ensures forall i :: 0 <= i < |items| && items[i].Obj? && Truthy(TitleOf(items[i].fields)) && Generated(items, month, show).Some? ==>
      exists k :: 0 <= k < |Generated(items, month, show).value| && Generated(items, month, show).value[k].rank == i + 1
    decreases |items|
  {
    if items != [] && Generated(items, month, show).Some? {
      var n := |items|;
      var init := items[..n - 1];
      GeneratedComplete(init, month, show);
      var qs := Generated(init, month, show).value;
      var last := QueryAt(items[n - 1], n, month, show).value;
      GeneratedSnoc(items, month, show);
      var r := Generated(items, month, show).value;
      forall i | 0 <= i < n && items[i].Obj? && Truthy(TitleOf(items[i].fields))
        ensures exists k :: 0 <= k < |r| && r[k].rank == i + 1
      {
        if i < n - 1 {
          assert init[i] == items[i];
          var k :| 0 <= k < |qs| && qs[k].rank == i + 1;
          assert r[k] == qs[k];
        } else {
          assert QueryAt(items[n - 1], n, month, show).Some?;
          assert last != [];
          assert r[|qs|] == last[0];
          assert r[|qs|].rank == i + 1;
        }
      }
    }
  }

  /** A query carries its entry unchanged, the defaults for missing fields and the month in its search text. */
  lemma QueryFields(item: Json, rank: int, month: string, show: Json -> string, q: Query)
    requires QueryAt(item, rank, month, show) == Some([q])
    ensures q.raw == item && item.Obj? && q.rank == rank
    ensures q.title == TitleOf(item.fields) && Truthy(q.title)
    ensures q.heat == GetOr(item.fields, "num", Str("N/A"))
    ensures q.category == GetOr(item.fields, "category", Str(""))
    ensures q.labelName == GetOr(item.fields, "label_name", Str(""))
    ensures q.searchQuery == SearchText(q.title, month, show)
  {
  }

  /**
   * At most `max_items` queries for a non-negative bound. Every rank lies in
   * 1..max_items, and every query carries the hot-search entry at its rank.
   */
  lemma QueriesBound(hotspots: seq<Json>, maxItems: int, now: Clock.DateTime, show: Json -> string)
    ensures GenerateQueries(hotspots, maxItems, now, show).Some? ==>
      var qs := GenerateQueries(hotspots, maxItems, now, show).value;
      (0 <= maxItems ==> |qs| <= maxItems) &&
      forall k :: 0 <= k < |qs| ==>
        1 <= qs[k].rank <= |hotspots| && (0 <= maxItems ==> qs[k].rank <= maxItems) &&
        QueryAt(hotspots[qs[k].rank - 1], qs[k].rank, Clock.MonthText(now), show) == Some([qs[k]])
  {
    var items := SliceTo(hotspots, maxItems);
    GeneratedFrom(items, Clock.MonthText(now), show);
    if GenerateQueries(hotspots, maxItems, now, show).Some? {
      var qs := GenerateQueries(hotspots, maxItems, now, show).value;
      forall k | 0 <= k < |qs|
        ensures items[qs[k].rank - 1] == hotspots[qs[k].rank - 1]
      {
      }
    }
  }

  /** `generate_search_queries`, with its index loop. */
  method GenerateSearchQueries(hotspots: seq<Json>, maxItems: int, now: Clock.DateTime, show: Json -> string)
    returns (queries: Option<seq<Query>>)
    ensures queries == GenerateQueries(hotspots, maxItems, now, show)
  {
    var items := SliceTo(hotspots, maxItems);
    var month := Clock.MonthText(now);
    var acc: seq<Query> := [];
    for i := 0 to |items|
      invariant Generated(items[..i], month, show) == Some(acc)
    {
      var item := items[i];
      if !item.Obj? {
        GeneratedRaises(items, month, show);
        return None;
      }
      var d := item.fields;
      var title := Or(GetOr(d, "note", Str("")), GetOr(d, "word", Str("")));
      var added: seq<Query> := [];
      if Truthy(title) {
        var searchQuery := SearchText(title, month, show);
        added := [Query(i + 1, title, GetOr(d, "num", Str("N/A")), GetOr(d, "category", Str("")),
                        GetOr(d, "label_name", Str("")), searchQuery, item)];
      }
      GeneratedStep(items, i, month, show);
      acc := acc + added;
    }
    assert items[..|items|] == items;
    queries := Some(acc);
  }

  /** One more entry extends the generated list by what that entry yields. */
  lemma GeneratedStep(items: seq<Json>, i: int, month: string, show: Json -> string)
    requires 0 <= i < |items|
    ensures Generated(items[..i + 1], month, show) ==
      match (Generated(items[..i], month, show), QueryAt(items[i], i + 1, month, show))
      case (Some(qs), Some(q)) => Some(qs + q)
      case _ => None
  {
    assert items[..i + 1][..i] == items[..i];
  }
}
