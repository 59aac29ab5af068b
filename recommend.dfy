/**
 * The recommendation back end (main.py): a three-way performance class, the
 * two label-to-number maps, and the `/recommend` selection, which keeps the
 * records whose title or category contains the keyword, orders them by the
 * rank of their predicted class, keeps the first five, and splits them into
 * a top video and the rest.
 *
 * The classifier's prediction is an input: each record carries its
 * predicted class.
 */
module Recommend {
  import opened Strings

  datatype Performance = Low | Medium | High

  /** The class of a record by its views per day. */
  function ClassifyPerformance(viewsPerDay: real): (p: Performance)
    ensures p == Low <==> viewsPerDay < 1000.0
    ensures p == Medium <==> 1000.0 <= viewsPerDay < 5000.0
    ensures p == High <==> 5000.0 <= viewsPerDay
  {
    if viewsPerDay < 1000.0 then Low
    else if 1000.0 <= viewsPerDay < 5000.0 then Medium
    else High
  }

  /** The label a class carries in the data. */
  function LabelName(p: Performance): string {
    match p
    case Low => "Low"
    case Medium => "Medium"
    case High => "High"
  }

  /** `perf_rank_map`: the sort key of each label. */
  const RankMap: map<string, nat> := map["High" := 3, "Medium" := 2, "Low" := 1]

  /** `performance_score_map`: the score weight of each label. */
  const ScoreMap: map<string, nat> := map["Low" := 1, "Medium" := 2, "High" := 3]

  /** The rank of a predicted class; higher is better. */
  function PerformanceRank(p: Performance): (r: nat)
    ensures 1 <= r <= 3
  {
    RankMap[LabelName(p)]
  }

  /** `performance_score_map.get(name, 1)`: any name, known or not, gets a weight. */
  function ScoreOfLabel(name: string): (r: nat)
    ensures 1 <= r <= 3
    ensures (forall p :: name != LabelName(p)) ==> r == 1
    ensures forall p :: name == LabelName(p) ==> r == PerformanceRank(p)
  {
    assert name in ScoreMap ==> name == LabelName(Low) || name == LabelName(Medium) || name == LabelName(High);
    if name in ScoreMap then ScoreMap[name] else 1
  }

  /** The rank order is the order of the views-per-day thresholds. */
  lemma ClassificationMonotone(v1: real, v2: real)
    requires v1 <= v2
    ensures PerformanceRank(ClassifyPerformance(v1)) <= PerformanceRank(ClassifyPerformance(v2))
  {
  }

  /** Distinct classes have distinct ranks, so the rank loses nothing. */
  lemma RankInjective(p: Performance, q: Performance)
    requires PerformanceRank(p) == PerformanceRank(q)
    ensures p == q
  {
  }

  // ---------------------------------------------------------------------------
  // Records and the keyword filter
  // ---------------------------------------------------------------------------

  /**
   * One row of the data set, reduced to the columns the route reads.
   * `viewsPerDay` stands for the column `classify_performance` is applied to
   * when the data set is labelled (main.py:24). The selection itself reads
   * only `predicted`.
   */
  datatype Video = Video(title: string, mainCategory: string, viewsPerDay: real, predicted: Performance)

  /** `a` is `b` with some elements left out, order kept. */
  ghost predicate IsSubsequence<T>(a: seq<T>, b: seq<T>)
    decreases |b|
  {
    if a == [] then true
    else if b == [] then false
    else (a[0] == b[0] && IsSubsequence(a[1..], b[1..])) || IsSubsequence(a, b[1..])
  }

  /** A record matches an (already lower-cased) keyword through its title or its category. */
  predicate Matches(keyword: string, v: Video) {
    Contains(Lower(v.title), keyword) || Contains(Lower(v.mainCategory), keyword)
  }

  /**
   * The records that match, in data order: a subsequence of the data that
   * keeps every copy of a matching record and no copy of any other.
   */
  function FilterByKeyword(data: seq<Video>, keyword: string): (r: seq<Video>)
    ensures IsSubsequence(r, data)
    ensures forall v :: v in r <==> v in data && Matches(keyword, v)
    decreases |data|
  {
    if data == [] then []
    else
      var rest := FilterByKeyword(data[1..], keyword);
      assert data == [data[0]] + data[1..];
      if Matches(keyword, data[0]) then
        assert ([data[0]] + rest)[1..] == rest;
        [data[0]] + rest
      else
        rest
  }

  /** The filter keeps every copy of a matching record and no copy of any other. */
  lemma {:induction false} FilterMultiplicity(data: seq<Video>, keyword: string, v: Video)
    ensures multiset(FilterByKeyword(data, keyword))[v] == if Matches(keyword, v) then multiset(data)[v] else 0
    decreases |data|
  {
    if data != [] {
      FilterMultiplicity(data[1..], keyword, v);
      assert data == [data[0]] + data[1..];
    }
  }

  /**
   * Matching is case-insensitive: a record whose title or main category
   * contains the keyword, in whatever letter case, is kept by the filter on
   * the lower-cased keyword.
   */
  lemma FilterIgnoresKeywordCase(data: seq<Video>, v: Video, k: string)
    requires v in data && (Contains(v.title, k) || Contains(v.mainCategory, k))
    ensures v in FilterByKeyword(data, Lower(k))
  {
    if Contains(v.title, k) {
      ContainsLower(v.title, k);
    } else {
      ContainsLower(v.mainCategory, k);
    }
  }

  /** The empty keyword is contained in every title, so it keeps every record. */
  lemma {:induction false} EmptyKeywordKeepsAll(data: seq<Video>)
    ensures FilterByKeyword(data, "") == data
    decreases |data|
  {
    if data != [] {
      assert OccursAt(Lower(data[0].title), "", 0);
      EmptyKeywordKeepsAll(data[1..]);
    }
  }

  // ---------------------------------------------------------------------------
  // Ranking and sorting
  // ---------------------------------------------------------------------------

  /** The `Performance Rank` cell: a number, or the mark of the top row. */
  datatype Rank = Numeric(value: nat) | Top

  datatype Row = Row(video: Video, rank: Rank)

  /** Each record with its rank cell filled from its predicted class. */
  function WithRanks(vs: seq<Video>): seq<Row> {
    seq(|vs|, i requires 0 <= i < |vs| => Row(vs[i], Numeric(PerformanceRank(vs[i].predicted))))
  }

  /** The sort key of a row; only rows whose rank is still numeric are ever sorted. */
  function Key(r: Row): nat {
    match r.rank
    case Numeric(n) => n
    case Top => 0
  }

  /** Rank is non-increasing along `s`. */
  ghost predicate SortedByRank(s: seq<Row>) {
    forall i, j :: 0 <= i < j < |s| ==> Key(s[i]) >= Key(s[j])
  }

  /** A row that ranks at least as high as the head of a sorted sequence can go in front. */
  lemma ConsSorted(y: Row, t: seq<Row>)
    requires SortedByRank(t)
    requires t == [] || Key(y) >= Key(t[0])
    ensures SortedByRank([y] + t)
  {
    var r := [y] + t;
    forall i, j | 0 <= i < j < |r|
      ensures Key(r[i]) >= Key(r[j])
    {
      if i == 0 {
        assert Key(t[0]) >= Key(t[j - 1]) || j == 1;
      } else {
        assert r[i] == t[i - 1] && r[j] == t[j - 1];
      }
    }
  }

  /** Puts `x` before the first row of lower rank. */
  function Insert(x: Row, s: seq<Row>): (r: seq<Row>)
    requires SortedByRank(s)
    ensures SortedByRank(r)
    ensures multiset(r) == multiset(s) + multiset{x}
    ensures |r| == |s| + 1 && (r[0] == x || (s != [] && r[0] == s[0]))
    decreases |s|
  {
    if s == [] || Key(x) >= Key(s[0]) then
      ConsSorted(x, s);
      [x] + s
    else
      var t := Insert(x, s[1..]);
      assert SortedByRank(s[1..]) by {
        forall i, j | 0 <= i < j < |s| - 1 ensures Key(s[1..][i]) >= Key(s[1..][j]) {
          assert s[1..][i] == s[i + 1] && s[1..][j] == s[j + 1];
        }
      }
      assert Key(s[0]) >= Key(t[0]) by {
        if t[0] != x {
          assert t[0] == s[1];
        }
      }
      ConsSorted(s[0], t);
      assert s == [s[0]] + s[1..];
      [s[0]] + t
  }

  /**
   * `sort_values(by='Performance Rank', ascending=False)`: a permutation of
   * the rows with rank non-increasing. The order among rows of equal rank is
   * this model's choice; nothing below depends on it.
   */
  function SortByRank(s: seq<Row>): (r: seq<Row>)
    ensures SortedByRank(r)
    ensures multiset(r) == multiset(s)
    decreases |s|
  {
    if s == [] then []
    else
      assert s == [s[0]] + s[1..];
      Insert(s[0], SortByRank(s[1..]))
  }

  // ---------------------------------------------------------------------------
  // Selection
  // ---------------------------------------------------------------------------

  /** How many rows `head` keeps. */
  const TopCount: nat := 5

  function Min(a: nat, b: nat): nat {
    if a < b then a else b
  }

  /** Every record of `vs` has its ranked row among the rows of `sorted`. */
  lemma {:induction false} RankedRowPresent(vs: seq<Video>, sorted: seq<Row>, v: Video)
    requires multiset(sorted) == multiset(WithRanks(vs))
    requires v in vs
    ensures Row(v, Numeric(PerformanceRank(v.predicted))) in sorted
  {
    var i :| 0 <= i < |vs| && vs[i] == v;
    var ranked := WithRanks(vs);
    assert ranked[i] == Row(v, Numeric(PerformanceRank(v.predicted)));
    assert ranked[i] in multiset(ranked);
  }

  /** The first row of a rank-sorted arrangement ranks highest of all the records. */
  lemma {:induction false} SortedHeadIsMax(filtered: seq<Video>, sorted: seq<Row>)
    requires filtered != []
    requires SortedByRank(sorted) && multiset(sorted) == multiset(WithRanks(filtered))
    ensures |sorted| == |filtered|
    ensures sorted[0] in WithRanks(filtered)
    ensures forall v :: v in filtered ==> PerformanceRank(v.predicted) <= Key(sorted[0])
  {
    assert |sorted| == |multiset(sorted)| == |WithRanks(filtered)| == |filtered|;
    assert sorted[0] in multiset(sorted);
    forall v | v in filtered
      ensures PerformanceRank(v.predicted) <= Key(sorted[0])
    {
      RankedRowPresent(filtered, sorted, v);
      var j :| 0 <= j < |sorted| && sorted[j] == Row(v, Numeric(PerformanceRank(v.predicted)));
      assert Key(sorted[0]) >= Key(sorted[j]);
    }
  }

  /** What `head(n)` leaves out of a rank-sorted arrangement ranks no higher than what it keeps. */
  lemma {:induction false} HeadKeepsHighest(sorted: seq<Row>, n: nat)
    requires SortedByRank(sorted) && 0 < n <= |sorted|
    ensures forall x :: x in multiset(sorted) - multiset(sorted[..n]) ==> Key(x) <= Key(sorted[n - 1])
  {
    var top, dropped := sorted[..n], sorted[n..];
    assert sorted == top + dropped;
    assert multiset(sorted) - multiset(top) == multiset(dropped);
    forall x | x in multiset(sorted) - multiset(top)
      ensures Key(x) <= Key(sorted[n - 1])
    {
      assert x in dropped;
      var j :| 0 <= j < |dropped| && dropped[j] == x;
      assert sorted[n + j] == x;
    }
  }

  /**
   * What the first five rows of ANY rank-sorted arrangement of the filtered
   * records satisfy: there are min(5, n) of them; the first has the highest
   * rank of all the filtered records; the rest are at most four and rank no
   * higher than it; and every filtered record left out ranks no higher than
   * the last one kept.
   */
  lemma {:induction false} TopSelection(filtered: seq<Video>, sorted: seq<Row>)
    requires filtered != []
    requires SortedByRank(sorted) && multiset(sorted) == multiset(WithRanks(filtered))
    ensures |sorted| == |filtered|
    ensures var top := sorted[..Min(TopCount, |sorted|)];
      && |top| == Min(TopCount, |filtered|)
      && top[0] in WithRanks(filtered)
      && (forall v :: v in filtered ==> PerformanceRank(v.predicted) <= Key(top[0]))
      && |top[1..]| <= TopCount - 1
      && (forall r :: r in top[1..] ==> Key(r) <= Key(top[0]))
      && (forall x :: x in multiset(WithRanks(filtered)) - multiset(top) ==> Key(x) <= Key(top[|top| - 1]))
  {
    SortedHeadIsMax(filtered, sorted);
    var n := Min(TopCount, |sorted|);
    HeadKeepsHighest(sorted, n);
    var top := sorted[..n];
    forall r | r in top[1..]
      ensures Key(r) <= Key(top[0])
    {
      var j :| 0 <= j < |top[1..]| && top[1..][j] == r;
      assert top[1..][j] == sorted[j + 1];
    }
  }

  /** Every rank cell the mapping fills is numeric and agrees with the class. */
  lemma RanksAreNumeric(vs: seq<Video>)
    ensures |WithRanks(vs)| == |vs|
    ensures forall i :: 0 <= i < |vs| ==> WithRanks(vs)[i].video == vs[i]
    ensures forall r :: r in WithRanks(vs) ==> r.video in vs && r.rank.Numeric? && Key(r) == PerformanceRank(r.video.predicted)
  {
  }

  /** `top_5.iloc[0, Performance Rank] = 'Top'`: only row 0's rank cell changes. */
  method MarkTop(top: array<Row>)
    requires top.Length > 0
    modifies top
    ensures top[0] == old(top[0]).(rank := Top)
    ensures forall i :: 1 <= i < top.Length ==> top[i] == old(top[i])
  {
    top[0] := top[0].(rank := Top);
  }

  const NoVideosMessage: string := "No videos found for the keyword."

  /** What the page is rendered with. */
  datatype Outcome =
    | NoVideosFound(keyword: string, message: string)
    | Recommendation(keyword: string, topVideo: Row, others: seq<Row>)

  /** Rows 1 to n - 1 of an arrangement of the ranked records are ranked records. */
  lemma OthersFromFiltered(filtered: seq<Video>, sorted: seq<Row>, n: nat)
    requires multiset(sorted) == multiset(WithRanks(filtered))
    requires 1 <= n <= |sorted|
    ensures forall r :: r in sorted[1..n] ==> r in WithRanks(filtered)
  {
    forall r | r in sorted[1..n]
      ensures r in WithRanks(filtered)
    {
      assert r in multiset(sorted);
    }
  }

  /**
   * The selection's promises, stated on the data: the top row is a matching
   * record with a numeric rank that no matching record exceeds, and the
   * other rows are matching records that rank no higher, min(5, n) - 1 of
   * them where n records match.
   */
  ghost predicate SoundSelection(data: seq<Video>, keyword: string, top: Row, others: seq<Row>) {
    var filtered := FilterByKeyword(data, keyword);
    && top.rank.Numeric?
    && top.video in data && Matches(keyword, top.video)
    && (forall v :: v in data && Matches(keyword, v) ==> PerformanceRank(v.predicted) <= Key(top))
    && |others| == Min(TopCount, |filtered|) - 1
    && (forall r :: r in others ==> r.video in filtered && Key(r) <= Key(top))
  }

  /** The first row and the next four of the rank-sorted matches form a sound selection. */
  lemma {:induction false} SelectionFacts(data: seq<Video>, keyword: string)
    requires FilterByKeyword(data, keyword) != []
    ensures var sorted := SortByRank(WithRanks(FilterByKeyword(data, keyword)));
      && |sorted| == |FilterByKeyword(data, keyword)|
      && SoundSelection(data, keyword, sorted[0], sorted[1..Min(TopCount, |sorted|)])
  {
    var filtered := FilterByKeyword(data, keyword);
    var sorted := SortByRank(WithRanks(filtered));
    TopSelection(filtered, sorted);
    RanksAreNumeric(filtered);
    OthersFromFiltered(filtered, sorted, Min(TopCount, |sorted|));
  }

  /** No record matches exactly when the filter keeps nothing. */
  lemma NoMatchIff(data: seq<Video>, keyword: string)
    ensures FilterByKeyword(data, keyword) == [] <==> forall v :: v in data ==> !Matches(keyword, v)
  {
    var filtered := FilterByKeyword(data, keyword);
    if filtered != [] {
      assert filtered[0] in filtered;
    }
  }

  /**
   * `head(n).copy()`, the copy of row 0 taken as the top video, then the
   * 'Top' mark on row 0 and `iloc[1:]`: the top video is row 0 as sorted
   * and the rest are rows 1 to n - 1, untouched by the mark.
   */
  method SplitTop(sorted: seq<Row>, n: nat) returns (topVideo: Row, others: seq<Row>)
    requires 1 <= n <= |sorted|
    ensures topVideo == sorted[0] && others == sorted[1..n]
  {
    var top := new Row[n](i requires 0 <= i < n => sorted[i]);
    topVideo := top[0];
    MarkTop(top);
    others := top[1..];
    assert others == sorted[1..n];
  }

  /**
   * The `/recommend` handler. `topVideo` is the first row as it was before
   * the 'Top' mark (a copy taken earlier), and `others` are rows 1 to 4,
   * so neither shows the mark.
   */
  method Recommend(data: seq<Video>, rawKeyword: string) returns (out: Outcome)
    ensures out.keyword == Lower(rawKeyword)
    ensures out.NoVideosFound? <==> forall v :: v in data ==> !Matches(Lower(rawKeyword), v)
    ensures out.NoVideosFound? ==> out.message == NoVideosMessage
    ensures out.Recommendation? ==>
      var sorted := SortByRank(WithRanks(FilterByKeyword(data, Lower(rawKeyword))));
      && out.topVideo == sorted[0]
      && out.others == sorted[1..Min(TopCount, |sorted|)]
    ensures out.Recommendation? ==> SoundSelection(data, Lower(rawKeyword), out.topVideo, out.others)
  {
    var keyword := Lower(rawKeyword);
    var filtered := FilterByKeyword(data, keyword);
    NoMatchIff(data, keyword);
    if filtered == [] {
      out := NoVideosFound(keyword, NoVideosMessage);
      return;
    }
    var sorted := SortByRank(WithRanks(filtered));
    SelectionFacts(data, keyword);
    var topVideo, others := SplitTop(sorted, Min(TopCount, |sorted|));
    out := Recommendation(keyword, topVideo, others);
  }
}
