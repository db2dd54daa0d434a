/**
 * The ranking half of `search_youtube_videos` in utils/youtube_api2.py: one
 * record per returned video, then a stable sort by score, highest first
 * (`list.sort(key=..., reverse=True)` keeps equal keys in input order).
 * The search and statistics requests themselves are not modelled; their
 * result, the list of video items, is an input.
 */
module Ranking {
  import opened Wrappers
  import opened Scoring
  import opened Text

  /** One entry of the `items` list of the statistics response. */
  datatype VideoItem = VideoItem(id: Option<string>, snippet: Snippet, statistics: Statistics)

  /** The part of a result record the ranking decides: the video id and its score. */
  datatype VideoRecord = VideoRecord(videoId: Option<string>, score: real)

  /** The score of one item, as `_compute_score(snippet, stats, query)` computes it. */
  function ItemScore(log10: real -> real, query: Option<string>, item: VideoItem): (r: Result<real, ScoreError>) {
    Score(log10, item.snippet, item.statistics, query)
  }

  /** Item `i` is the first whose score raises, and it raises `e`. */
  predicate FirstFailureAt(log10: real -> real, query: Option<string>, items: seq<VideoItem>, i: int, e: ScoreError) {
    && 0 <= i < |items|
    && ItemScore(log10, query, items[i]) == Failure(e)
    && forall j :: 0 <= j < i ==> ItemScore(log10, query, items[j]).Success?
  }

  /**
   * The loop that appends one record per item. The first item whose score raises
   * ends the whole search with that error.
   */
  function BuildRecords(log10: real -> real, query: Option<string>, items: seq<VideoItem>)
    : (r: Result<seq<VideoRecord>, ScoreError>)
    ensures r.Success? <==> forall i :: 0 <= i < |items| ==> ItemScore(log10, query, items[i]).Success?
    ensures r.Success? ==> RecordsOf(log10, query, items, r.value)
    ensures r.Failure? ==> exists i :: FirstFailureAt(log10, query, items, i, r.error)
  {
    if items == [] then
      Success([])
    else
      match ItemScore(log10, query, items[0])
      case Failure(e) =>
        assert FirstFailureAt(log10, query, items, 0, e);
        Failure(e)
      case Success(score) =>
        match BuildRecords(log10, query, items[1..])
        case Failure(e) =>
          var k :| FirstFailureAt(log10, query, items[1..], k, e);
          FirstFailureBehind(log10, query, items, k, e);
          Failure(e)
        case Success(rest) =>
          RecordsBehind(log10, query, items, score, rest);
          Success([VideoRecord(items[0].id, score)] + rest)
  }

  /** Record `i` carries the id of item `i` and the score that item computes, for every `i`. */
  predicate RecordsOf(log10: real -> real, query: Option<string>, items: seq<VideoItem>, records: seq<VideoRecord>) {
    && |records| == |items|
    && forall i :: 0 <= i < |items| ==>
         && records[i].videoId == items[i].id
         && ItemScore(log10, query, items[i]) == Success(records[i].score)
  }

  /** The record of a scoring first item, put in front of the records of the others. */
  lemma RecordsBehind(log10: real -> real, query: Option<string>, items: seq<VideoItem>, score: real, rest: seq<VideoRecord>)
    requires items != [] && ItemScore(log10, query, items[0]) == Success(score)
    requires RecordsOf(log10, query, items[1..], rest)
    ensures RecordsOf(log10, query, items, [VideoRecord(items[0].id, score)] + rest)
  {
    var records := [VideoRecord(items[0].id, score)] + rest;
    forall i | 1 <= i < |items|
      ensures records[i].videoId == items[i].id && ItemScore(log10, query, items[i]) == Success(records[i].score)
    {
      assert items[i] == items[1..][i - 1] && records[i] == rest[i - 1];
    }
  }

  /** A first failure among the items after a scoring first item is the first failure overall. */
  lemma FirstFailureBehind(log10: real -> real, query: Option<string>, items: seq<VideoItem>, k: int, e: ScoreError)
    requires items != [] && ItemScore(log10, query, items[0]).Success?
    requires FirstFailureAt(log10, query, items[1..], k, e)
    ensures FirstFailureAt(log10, query, items, k + 1, e)
  {
    assert forall j :: 1 <= j < k + 1 ==> items[j] == items[1..][j - 1];
  }

  /** Scores never increase along `s`. */
  predicate NonIncreasing(s: seq<VideoRecord>) {
    forall i, j :: 0 <= i < j < |s| ==> s[i].score >= s[j].score
  }

  /**
   * Inserts `x` into a list sorted by decreasing score, in front of every record
   * whose score is at most its own.
   */
  function Insert(x: VideoRecord, s: seq<VideoRecord>): (r: seq<VideoRecord>)
    requires NonIncreasing(s)
    decreases |s|
    ensures NonIncreasing(r)
    ensures multiset(r) == multiset(s) + multiset{x}
    ensures r[0] == x || (|s| > 0 && r[0] == s[0])
  {
    if s == [] || s[0].score <= x.score then
      [x] + s
    else
      var rest := Insert(x, s[1..]);
      InsertBehind(x, s, rest);
      [s[0]] + rest
  }

  /** The step of `Insert` that keeps a higher-scoring head in front. */
  lemma InsertBehind(x: VideoRecord, s: seq<VideoRecord>, rest: seq<VideoRecord>)
    requires NonIncreasing(s) && s != [] && x.score < s[0].score
    requires NonIncreasing(rest)
    requires multiset(rest) == multiset(s[1..]) + multiset{x}
    requires rest[0] == x || (|s| > 1 && rest[0] == s[1])
    ensures NonIncreasing([s[0]] + rest)
    ensures multiset([s[0]] + rest) == multiset(s) + multiset{x}
  {
    assert s == [s[0]] + s[1..];
    assert multiset(s) == multiset{s[0]} + multiset(s[1..]);
    assert multiset([s[0]] + rest) == multiset{s[0]} + multiset(rest);
    ConsNonIncreasing(s[0], rest);
  }

  /** A record no lower than any record of a sorted list can go in front of it. */
  lemma ConsNonIncreasing(a: VideoRecord, s: seq<VideoRecord>)
    requires NonIncreasing(s)
    requires |s| > 0 ==> s[0].score <= a.score
    ensures NonIncreasing([a] + s)
  {
    var r := [a] + s;
    forall i, j | 0 <= i < j < |r|
      ensures r[i].score >= r[j].score
    {
      assert r[j] == s[j - 1];
      if i > 0 {
        assert r[i] == s[i - 1];
      } else {
        assert s[0].score >= s[j - 1].score;
      }
    }
  }

  /** Sorting by score, highest first, keeping records with equal scores in input order. */
  function SortByScoreDescending(s: seq<VideoRecord>): (r: seq<VideoRecord>)
    decreases |s|
    ensures NonIncreasing(r)
    ensures multiset(r) == multiset(s)
    ensures |r| == |s|
  {
    if s == [] then
      []
    else
      assert s == [s[0]] + s[1..];
      Insert(s[0], SortByScoreDescending(s[1..]))
  }

  /** `x` alone when its score is `v`, and nothing otherwise. */
  function KeepIfScore(x: VideoRecord, v: real): (r: seq<VideoRecord>) {
    if x.score == v then [x] else []
  }

  /** The records of `s` whose score is `v`, in their order in `s`. */
  function WithScore(s: seq<VideoRecord>, v: real): (r: seq<VideoRecord>)
    decreases |s|
  {
    if s == [] then [] else KeepIfScore(s[0], v) + WithScore(s[1..], v)
  }

  lemma WithScoreCons(x: VideoRecord, s: seq<VideoRecord>, v: real)
    ensures WithScore([x] + s, v) == KeepIfScore(x, v) + WithScore(s, v)
  {
    assert ([x] + s)[1..] == s;
  }

  /** Two records with different scores cannot both be kept for the same score. */
  lemma KeepDistinctCommute(a: VideoRecord, b: VideoRecord, v: real, t: seq<VideoRecord>)
    requires a.score != b.score
    ensures KeepIfScore(a, v) + (KeepIfScore(b, v) + t) == KeepIfScore(b, v) + (KeepIfScore(a, v) + t)
  {
  }

  lemma {:induction false} InsertWithScore(x: VideoRecord, s: seq<VideoRecord>, v: real)
    requires NonIncreasing(s)
    decreases |s|
    ensures WithScore(Insert(x, s), v) == KeepIfScore(x, v) + WithScore(s, v)
  {
    if s == [] || s[0].score <= x.score {
      WithScoreCons(x, s, v);
    } else {
      var rest := Insert(x, s[1..]);
      InsertWithScore(x, s[1..], v);
      WithScoreCons(s[0], rest, v);
      KeepDistinctCommute(s[0], x, v, WithScore(s[1..], v));
    }
  }

  /** The sort is stable: for every score, the records with that score keep their order. */
  lemma {:induction false} SortIsStable(s: seq<VideoRecord>, v: real)
    decreases |s|
    ensures WithScore(SortByScoreDescending(s), v) == WithScore(s, v)
  {
    if s != [] {
      SortIsStable(s[1..], v);
      InsertWithScore(s[0], SortByScoreDescending(s[1..]), v);
    }
  }

  /**
   * The ranked result of `search_youtube_videos` once the item list is known:
   * one record per item, highest score first, ties in item order; or the error
   * the first failing score raised.
   */
  function Rank(log10: real -> real, query: Option<string>, items: seq<VideoItem>)
    : (r: Result<seq<VideoRecord>, ScoreError>)
    ensures r.Success? <==> BuildRecords(log10, query, items).Success?
    ensures r.Failure? ==> r == BuildRecords(log10, query, items)
    ensures r.Success? ==> |r.value| == |items|
    ensures r.Success? ==> multiset(r.value) == multiset(BuildRecords(log10, query, items).value)
    ensures r.Success? ==> NonIncreasing(r.value)
    ensures r.Success? ==> forall v :: WithScore(r.value, v) == WithScore(BuildRecords(log10, query, items).value, v)
    ensures items == [] ==> r == Success([])
  {
    match BuildRecords(log10, query, items)
    case Failure(e) => Failure(e)
    case Success(records) =>
      var sorted := SortByScoreDescending(records);
      assert forall v :: WithScore(sorted, v) == WithScore(records, v) by {
        forall v ensures WithScore(sorted, v) == WithScore(records, v) {
          SortIsStable(records, v);
        }
      }
      Success(sorted)
  }
}
