/**
 * What the three report renderers share: the three-tier score classifier
 * (80 and 60 are the thresholds) and the statistics block (topic count,
 * high and medium counts, and the average score with a guard for an empty
 * list). The average is kept exact, as a rational number.
 */
module Scores {
  import opened Wrappers
  import opened PyJson

  datatype Tier = Top | Middle | Bottom

  /** The tier of a total score: at least 80, at least 60, or below. */
  function TierOf(score: int): (t: Tier)
    ensures t == Top <==> score >= 80
    ensures t == Middle <==> 60 <= score < 80
    ensures t == Bottom <==> score < 60
  {
    if score >= 80 then Top else if score >= 60 then Middle else Bottom
  }

  function Level(t: Tier): nat
  {
    match t
    case Top => 2
    case Middle => 1
    case Bottom => 0
  }

  /** A higher score never lands in a lower tier. */
  lemma TierMonotone(a: int, b: int)
    requires a <= b
    ensures Level(TierOf(a)) <= Level(TierOf(b))
  {
  }

  /** `r['total_score']` read as a number; `None` where reading or comparing it raises. */
  function RecordScore(r: Json): (s: Option<int>)
    ensures s.Some? <==> r.Obj? && "total_score" in r.fields && AsInt(r.fields["total_score"]).Some?
  {
    if r.Obj? && "total_score" in r.fields then AsInt(r.fields["total_score"]) else None
  }

  /** The total scores of all records, or `None` if any of them has none. */
  function RecordScores(rs: seq<Json>): (s: Option<seq<int>>)
    ensures s.Some? <==> forall i :: 0 <= i < |rs| ==> RecordScore(rs[i]).Some?
    ensures s.Some? ==> |s.value| == |rs| && forall i :: 0 <= i < |rs| ==> s.value[i] == RecordScore(rs[i]).value
    decreases |rs|
  {
    if rs == [] then Some([])
    else match (RecordScore(rs[0]), RecordScores(rs[1..]))
      case (Some(x), Some(xs)) => Some([x] + xs)
      case (None, _) => None
      case (_, None) =>
        assert forall i :: 1 <= i < |rs| ==> rs[i] == rs[1..][i - 1];
        None
  }

  function HighCount(s: seq<int>): nat
    decreases |s|
  {
    if s == [] then 0 else HighCount(s[..|s| - 1]) + (if s[|s| - 1] >= 80 then 1 else 0)
  }

  function MediumCount(s: seq<int>): nat
    decreases |s|
  {
    if s == [] then 0 else MediumCount(s[..|s| - 1]) + (if 60 <= s[|s| - 1] < 80 then 1 else 0)
  }

  function Sum(s: seq<int>): int
    decreases |s|
  {
    if s == [] then 0 else Sum(s[..|s| - 1]) + s[|s| - 1]
  }

  /** The positions of the scores at least 80. */
  function HighIndices(s: seq<int>): set<int>
  {
    set i | 0 <= i < |s| && s[i] >= 80
  }

  /** The positions of the scores from 60 up to but excluding 80. */
  function MediumIndices(s: seq<int>): set<int>
  {
    set i | 0 <= i < |s| && 60 <= s[i] < 80
  }

  /** The counts are the sizes of the two position sets, which are disjoint. */
  lemma CountsAreSetSizes(s: seq<int>)
    ensures HighCount(s) == |HighIndices(s)| && MediumCount(s) == |MediumIndices(s)|
    ensures HighIndices(s) !! MediumIndices(s)
  {
    HighCountSize(s);
    MediumCountSize(s);
  }

  lemma {:induction false} HighCountSize(s: seq<int>)
    ensures HighCount(s) == |HighIndices(s)|
    decreases |s|
  {
    if s != [] {
      var p, n := s[..|s| - 1], |s| - 1;
      HighCountSize(p);
      var hp := HighIndices(p);
      assert n !in hp;
      assert HighIndices(s) == hp + (if s[n] >= 80 then {n} else {});
    }
  }

  lemma {:induction false} MediumCountSize(s: seq<int>)
    ensures MediumCount(s) == |MediumIndices(s)|
    decreases |s|
  {
    if s != [] {
      var p, n := s[..|s| - 1], |s| - 1;
      MediumCountSize(p);
      var mp := MediumIndices(p);
      assert n !in mp;
      assert MediumIndices(s) == mp + (if 60 <= s[n] < 80 then {n} else {});
    }
  }

  /** High and medium never overlap, so together they never exceed the number of topics. */
  lemma {:induction false} HighMediumWithinTotal(s: seq<int>)
    ensures HighCount(s) + MediumCount(s) <= |s|
    decreases |s|
  {
    if s != [] {
      HighMediumWithinTotal(s[..|s| - 1]);
    }
  }

  datatype Stats = Stats(totalTopics: nat, highScoreCount: nat, mediumScoreCount: nat, scoreSum: int)

  /** `sum / total_topics if total_topics > 0 else 0`, exactly. */
  function Average(st: Stats): real
  {
    if st.totalTopics > 0 then st.scoreSum as real / st.totalTopics as real else 0.0
  }

  /** `calculate_stats` over the records' total scores. */
  function CalculateStats(scores: seq<int>): (st: Stats)
    ensures st.totalTopics == |scores|
    ensures st.highScoreCount + st.mediumScoreCount <= st.totalTopics
    ensures st.highScoreCount == |HighIndices(scores)| && st.mediumScoreCount == |MediumIndices(scores)|
    ensures |scores| == 0 ==> Average(st) == 0.0
    ensures |scores| > 0 ==> Average(st) == Sum(scores) as real / |scores| as real
  {
    HighMediumWithinTotal(scores);
    CountsAreSetSizes(scores);
    Stats(|scores|, HighCount(scores), MediumCount(scores), Sum(scores))
  }

  lemma {:induction false} SumBounds(s: seq<int>, lo: int, hi: int)
    requires forall i :: 0 <= i < |s| ==> lo <= s[i] <= hi
    ensures |s| * lo <= Sum(s) <= |s| * hi
    decreases |s|
  {
    if s != [] {
      var p, x := s[..|s| - 1], s[|s| - 1];
      assert forall i :: 0 <= i < |p| ==> p[i] == s[i];
      SumBounds(p, lo, hi);
      MulSucc(|p|, lo);
      MulSucc(|p|, hi);
    }
  }

  lemma MulSucc(n: int, k: int)
    ensures (n + 1) * k == n * k + k
  {
  }

  lemma QuotientBounds(sum: int, n: int, lo: int, hi: int)
    requires n > 0 && n * lo <= sum <= n * hi
    ensures lo as real <= sum as real / n as real <= hi as real
  {
    var q := sum as real / n as real;
    assert q * n as real == sum as real;
    assert (n * lo) as real == n as real * lo as real;
    assert (n * hi) as real == n as real * hi as real;
  }

  /** The average of non-empty scores lies between their lower and upper bounds. */
  lemma AverageBounds(scores: seq<int>, lo: int, hi: int)
    requires |scores| > 0
    requires forall i :: 0 <= i < |scores| ==> lo <= scores[i] <= hi
    ensures lo as real <= Average(CalculateStats(scores)) <= hi as real
  {
    SumBounds(scores, lo, hi);
    QuotientBounds(Sum(scores), |scores|, lo, hi);
  }

  /** Two topics scoring 90 and 50: one high, one low, average 70. */
  lemma StatsExample()
    ensures var st := CalculateStats([90, 50]);
      st.totalTopics == 2 && st.highScoreCount == 1 && st.mediumScoreCount == 0 && Average(st) == 70.0
  {
    var s := [90, 50];
    assert s[..1] == [90] && [90][..0] == [];
    assert Sum(s) == 140;
    assert HighIndices(s) == {0};
    assert MediumIndices(s) == {};
  }
}
