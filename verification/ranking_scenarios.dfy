/**
 * Worked rankings: two videos that differ only in whether their title matches
 * the query, ranked by the model of `search_youtube_videos`.
 */
module RankingScenarios {
  import opened Wrappers
  import opened Scoring
  import opened Text
  import opened Ranking

  lemma PhotosynthesisMatches()
    ensures MatchesIgnoringCase("Photosynthesis basics", "Photosynthesis")
  {
    var hit := "Photosynthesis basics";
    assert MatchesAt(hit, "Photosynthesis", 0) by {
      assert hit[0..14] == "Photosynthesis";
    }
  }

  lemma UnrelatedDoesNotMatch()
    ensures !MatchesIgnoringCase("Unrelated topic", "Photosynthesis")
  {
    var query := "Photosynthesis";
    var miss := "Unrelated topic";
    forall i | 0 <= i <= 1
      ensures !MatchesAt(miss, query, i)
    {
      assert Lower(miss[i..i + 14])[1] != Lower(query)[1];
    }
  }

  /** A successful ranking of exactly two records: the video with id `first`, then the one with id `second`. */
  predicate RanksFirstThenSecond(r: Result<seq<VideoRecord>, ScoreError>, first: string, second: string) {
    r.Success? && |r.value| == 2 && r.value[0].videoId == Some(first) && r.value[1].videoId == Some(second)
  }

  /**
   * Two videos with the same statistics and no description, searched for a non-empty
   * query: the one whose title matches ranks first and the other second, in whichever
   * order the search returned them.
   */
  lemma TitleMatchRanksFirst(log10: real -> real, query: string, hit: string, miss: string, stats: Statistics)
    requires query != []
    requires MatchesIgnoringCase(hit, query) && !MatchesIgnoringCase(miss, query)
    requires Score(log10, NoSnippet, stats, Some(query)).Success?
    ensures var a := VideoItem(Some("A"), Snippet(Some(hit), None), stats);
            var b := VideoItem(Some("B"), Snippet(Some(miss), None), stats);
            && RanksFirstThenSecond(Rank(log10, Some(query), [a, b]), "A", "B")
            && RanksFirstThenSecond(Rank(log10, Some(query), [b, a]), "A", "B")
  {
    var a := VideoItem(Some("A"), Snippet(Some(hit), None), stats);
    var b := VideoItem(Some("B"), Snippet(Some(miss), None), stats);
    TitleMatchAddsOne(log10, NoSnippet, stats, query, hit, miss);
    var sa := ItemScore(log10, Some(query), a).value;
    var sb := ItemScore(log10, Some(query), b).value;
    var ra := VideoRecord(Some("A"), sa);
    var rb := VideoRecord(Some("B"), sb);
    BuildPair(log10, Some(query), a, b, ra, rb);
    BuildPair(log10, Some(query), b, a, rb, ra);
    SortPair(ra, rb);
  }

  /** The records of two items that both score. */
  lemma BuildPair(log10: real -> real, query: Option<string>, a: VideoItem, b: VideoItem, ra: VideoRecord, rb: VideoRecord)
    requires ItemScore(log10, query, a) == Success(ra.score) && ra.videoId == a.id
    requires ItemScore(log10, query, b) == Success(rb.score) && rb.videoId == b.id
    ensures BuildRecords(log10, query, [a, b]) == Success([ra, rb])
  {
    var items := [a, b];
    assert items[0] == a && items[1] == b;
    var r := BuildRecords(log10, query, items);
    assert r.Success?;
    assert RecordsOf(log10, query, items, r.value);
    assert r.value[0] == ra && r.value[1] == rb;
    assert r.value == [ra, rb];
  }

  /** Sorting two records with different scores puts the higher one first, in either input order. */
  lemma SortPair(ra: VideoRecord, rb: VideoRecord)
    requires rb.score < ra.score
    ensures SortByScoreDescending([ra, rb]) == [ra, rb]
    ensures SortByScoreDescending([rb, ra]) == [ra, rb]
  {
    assert SortByScoreDescending([rb]) == Insert(rb, []) == [rb];
    assert SortByScoreDescending([ra]) == Insert(ra, []) == [ra];
    assert [ra, rb][1..] == [rb] && [rb, ra][1..] == [ra];
    assert Insert(ra, [rb]) == [ra, rb];
    assert Insert(rb, [ra]) == [ra] + Insert(rb, []);
  }

  /**
   * Two videos with equal counts (1000 views, 100 likes, 10 comments), searched for
   * "Photosynthesis": the one titled "Photosynthesis basics" ranks above the one
   * titled "Unrelated topic" in either input order, whatever the logarithm.
   */
  lemma PhotosynthesisScenario(log10: real -> real)
    ensures var stats := Statistics(Value(1000), Value(100), Value(10));
            var a := VideoItem(Some("A"), Snippet(Some("Photosynthesis basics"), None), stats);
            var b := VideoItem(Some("B"), Snippet(Some("Unrelated topic"), None), stats);
            && RanksFirstThenSecond(Rank(log10, Some("Photosynthesis"), [a, b]), "A", "B")
            && RanksFirstThenSecond(Rank(log10, Some("Photosynthesis"), [b, a]), "A", "B")
  {
    PhotosynthesisMatches();
    UnrelatedDoesNotMatch();
    TitleMatchRanksFirst(log10, "Photosynthesis", "Photosynthesis basics", "Unrelated topic",
                         Statistics(Value(1000), Value(100), Value(10)));
  }
}
