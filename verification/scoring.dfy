/**
 * The relevance score of one video (`_compute_score` in utils/youtube_api2.py):
 * a log-scaled view term, a like/view ratio term, a half-weighted log-scaled
 * comment term and a case-insensitive keyword bonus.
 *
 * Scores are reals, not IEEE doubles. `math.log10` is a parameter `log10`; the
 * facts the lemmas need about it are collected in `Log10Like`.
 */
module Scoring {
  import opened Wrappers
  import opened Text

  /** One numeric field of a video's `statistics` dictionary, as `int(...)` sees it. */
  datatype Stat =
    | Absent          // the key is missing, so `.get(key, 0)` yields 0
    | Value(n: int)   // a value `int(...)` accepts, denoting `n` (negative values included)
    | Malformed       // a value `int(...)` rejects (ValueError or TypeError)

  /** The `statistics` part of a video resource. */
  datatype Statistics = Statistics(viewCount: Stat, likeCount: Stat, commentCount: Stat)

  /** The `snippet` part of a video resource; `None` is a missing key or a JSON null. */
  datatype Snippet = Snippet(title: Option<string>, description: Option<string>)

  /** `item.get("statistics", {})` and `item.get("snippet", {})` for an item without them. */
  const NoStatistics: Statistics := Statistics(Absent, Absent, Absent)
  const NoSnippet: Snippet := Snippet(None, None)

  datatype CountField = ViewCount | LikeCount | CommentCount

  /** The exceptions the count parsing and `math.log10` in `_compute_score` can raise. */
  datatype ScoreError =
    | InvalidLiteral(field: CountField)   // `int(...)` rejected the field's value (ValueError or TypeError)
    | MathDomainError(field: CountField)  // `math.log10` of a value that is not positive

  /** The properties of the base-10 logarithm the lemmas rely on. */
  ghost predicate Log10Like(log10: real -> real) {
    && log10(1.0) == 0.0
    && forall x: real, y: real :: 0.0 < x <= y ==> log10(x) <= log10(y)
  }

  /** `int(stats.get(key, 0))`. */
  function ParseCount(s: Stat, field: CountField): (r: Result<int, ScoreError>)
    ensures s.Absent? ==> r == Success(0)
    ensures s.Value? ==> r == Success(s.n)
    ensures s.Malformed? ==> r == Failure(InvalidLiteral(field))
  {
    match s
    case Absent => Success(0)
    case Value(n) => Success(n)
    case Malformed => Failure(InvalidLiteral(field))
  }

  /** `math.log10(x)`, which raises ValueError unless `x` is positive. */
  function Log10(log10: real -> real, x: real, field: CountField): (r: Result<real, ScoreError>)
    ensures r.Success? <==> x > 0.0
    ensures r.Success? ==> r.value == log10(x)
    ensures r.Failure? ==> r.error == MathDomainError(field)
  {
    if x <= 0.0 then Failure(MathDomainError(field)) else Success(log10(x))
  }

  /** The like term: ten times the like/view ratio, and 0 when there are no views. */
  function LikeTerm(likes: int, views: int): (r: real)
    ensures views <= 0 ==> r == 0.0
    ensures views > 0 ==> r * (views as real) == 10.0 * (likes as real)
    ensures views > 0 && likes >= 0 ==> r >= 0.0
  {
    var ratio := if views > 0 then likes as real / views as real else 0.0;
    ratio * 10.0
  }

  /** The window of `text` starting at `i` equals `query` once both are lower-cased. */
  ghost predicate MatchesAt(text: string, query: string, i: int) {
    0 <= i && i + |query| <= |text| && Lower(text[i..i + |query|]) == Lower(query)
  }

  /** For a fixed positive view count, the like term grows with the like count. */
  lemma LikeTermMonotone(fewer: int, more: int, views: int)
    requires views > 0 && fewer <= more
    ensures LikeTerm(fewer, views) <= LikeTerm(more, views)
  {
    var v := views as real;
    var gap := (more - fewer) as real;
    assert gap / v >= 0.0;
    assert more as real / v == fewer as real / v + gap / v;
  }

  /** Some window of `text` equals `query` once both are lower-cased. */
  ghost predicate MatchesIgnoringCase(text: string, query: string) {
    exists i :: MatchesAt(text, query, i)
  }

  lemma ContainsLowerIffMatches(text: string, query: string)
    ensures Contains(Lower(text), Lower(query)) <==> MatchesIgnoringCase(text, query)
  {
    ContainsIffOccurs(Lower(text), Lower(query));
    if Contains(Lower(text), Lower(query)) {
      var i :| OccursAt(Lower(text), Lower(query), i);
      LowerSlice(text, i, i + |query|);
      assert MatchesAt(text, query, i);
    }
    if MatchesIgnoringCase(text, query) {
      var i :| MatchesAt(text, query, i);
      LowerSlice(text, i, i + |query|);
      assert OccursAt(Lower(text), Lower(query), i);
    }
  }

  /**
   * The keyword bonus: 1 when the title matches the query ignoring case, plus 1
   * when the description does. A query that is empty after lower-casing earns
   * nothing, although the empty string occurs in every string.
   */
  function KeywordBonus(title: string, description: string, query: string): (r: real)
    ensures r == 0.0 || r == 1.0 || r == 2.0
    ensures query == [] ==> r == 0.0
    ensures r == (if query != [] && MatchesIgnoringCase(title, query) then 1.0 else 0.0)
               + (if query != [] && MatchesIgnoringCase(description, query) then 1.0 else 0.0)
  {
    var t := Lower(title);
    var d := Lower(description);
    var q := Lower(query);
    ContainsLowerIffMatches(title, query);
    ContainsLowerIffMatches(description, query);
    if q == [] then
      0.0
    else
      (if Contains(t, q) then 1.0 else 0.0) + (if Contains(d, q) then 1.0 else 0.0)
  }

  /** `_compute_score(snippet, stats, query)`; `query` is `None` when the caller passed None. */
  function Score(log10: real -> real, snippet: Snippet, stats: Statistics, query: Option<string>)
    : (r: Result<real, ScoreError>)
    ensures r.Failure? <==>
      || stats.viewCount.Malformed? || stats.likeCount.Malformed? || stats.commentCount.Malformed?
      || (stats.viewCount.Value? && stats.viewCount.n < 0)
      || (stats.commentCount.Value? && stats.commentCount.n < 0)
  {
    var views :- ParseCount(stats.viewCount, ViewCount);
    var likes :- ParseCount(stats.likeCount, LikeCount);
    var comments :- ParseCount(stats.commentCount, CommentCount);
    var sViews :- Log10(log10, views as real + 1.0, ViewCount);
    var sLike := LikeTerm(likes, views);
    var sComments :- Log10(log10, comments as real + 1.0, CommentCount);
    var title := snippet.title.GetOr("");
    var description := snippet.description.GetOr("");
    var sKeyword := KeywordBonus(title, description, query.GetOr(""));
    Success(1.0 * sViews + 1.0 * sLike + 0.5 * sComments + 1.0 * sKeyword)
  }

  /** The score of a video whose counts all parse and are non-negative, as the sum of its terms. */
  lemma ScoreDecomposes(log10: real -> real, snippet: Snippet, query: Option<string>, views: nat, likes: int, comments: nat)
    ensures Score(log10, snippet, Statistics(Value(views), Value(likes), Value(comments)), query)
         == Success(log10(views as real + 1.0) + LikeTerm(likes, views) + 0.5 * log10(comments as real + 1.0)
                    + KeywordBonus(snippet.title.GetOr(""), snippet.description.GetOr(""), query.GetOr("")))
  {
  }

  /** A missing count scores exactly as an explicit count of 0, for each of the three counts. */
  lemma MissingCountReadsAsZero(log10: real -> real, snippet: Snippet, stats: Statistics, query: Option<string>)
    ensures Score(log10, snippet, stats.(viewCount := Absent), query)
         == Score(log10, snippet, stats.(viewCount := Value(0)), query)
    ensures Score(log10, snippet, stats.(likeCount := Absent), query)
         == Score(log10, snippet, stats.(likeCount := Value(0)), query)
    ensures Score(log10, snippet, stats.(commentCount := Absent), query)
         == Score(log10, snippet, stats.(commentCount := Value(0)), query)
  {
  }

  /**
   * Which error scoring raises: the counts are parsed in the order views, likes,
   * comments, so the first malformed one is reported; only when all three parse does
   * a negative view count, and after it a negative comment count, fail in `math.log10`.
   */
  lemma ScoreErrorOrder(log10: real -> real, snippet: Snippet, stats: Statistics, query: Option<string>)
    ensures stats.viewCount.Malformed? ==>
              Score(log10, snippet, stats, query) == Failure(InvalidLiteral(ViewCount))
    ensures !stats.viewCount.Malformed? && stats.likeCount.Malformed? ==>
              Score(log10, snippet, stats, query) == Failure(InvalidLiteral(LikeCount))
    ensures !stats.viewCount.Malformed? && !stats.likeCount.Malformed? && stats.commentCount.Malformed? ==>
              Score(log10, snippet, stats, query) == Failure(InvalidLiteral(CommentCount))
    ensures && !stats.viewCount.Malformed? && !stats.likeCount.Malformed? && !stats.commentCount.Malformed?
            && stats.viewCount.Value? && stats.viewCount.n < 0 ==>
              Score(log10, snippet, stats, query) == Failure(MathDomainError(ViewCount))
    ensures && !stats.viewCount.Malformed? && !stats.likeCount.Malformed? && !stats.commentCount.Malformed?
            && !(stats.viewCount.Value? && stats.viewCount.n < 0)
            && stats.commentCount.Value? && stats.commentCount.n < 0 ==>
              Score(log10, snippet, stats, query) == Failure(MathDomainError(CommentCount))
  {
  }

  /** Upper-casing the query, the title and the description does not change the bonus. */
  lemma KeywordBonusIgnoresCase(title: string, description: string, query: string)
    ensures KeywordBonus(Upper(title), Upper(description), Upper(query)) == KeywordBonus(title, description, query)
  {
    LowerUpper(title);
    LowerUpper(description);
    LowerUpper(query);
  }

  /** A count that `_compute_score` reads as 0. */
  predicate ReadsAsZero(s: Stat) {
    s == Absent || s == Value(0)
  }

  /** Without views there is no like term, so the like count does not matter. */
  lemma ScoreIgnoresLikesWithoutViews(log10: real -> real, snippet: Snippet, stats: Statistics, query: Option<string>, likes: Stat)
    requires ReadsAsZero(stats.viewCount)
    requires !stats.likeCount.Malformed? && !likes.Malformed?
    ensures Score(log10, snippet, stats.(likeCount := likes), query) == Score(log10, snippet, stats, query)
  {
  }

  /** More comments never lower the score. */
  lemma ScoreMonotoneInComments(log10: real -> real, snippet: Snippet, stats: Statistics, query: Option<string>, fewer: int, more: int)
    requires Log10Like(log10)
    requires 0 <= fewer <= more
    requires Score(log10, snippet, stats.(commentCount := Value(fewer)), query).Success?
    ensures Score(log10, snippet, stats.(commentCount := Value(more)), query).Success?
    ensures Score(log10, snippet, stats.(commentCount := Value(fewer)), query).value
         <= Score(log10, snippet, stats.(commentCount := Value(more)), query).value
  {
    assert log10(fewer as real + 1.0) <= log10(more as real + 1.0);
  }

  /** With no likes, more views never lower the score. */
  lemma ScoreMonotoneInViewsWithoutLikes(log10: real -> real, snippet: Snippet, stats: Statistics, query: Option<string>, fewer: int, more: int)
    requires Log10Like(log10)
    requires ReadsAsZero(stats.likeCount)
    requires 0 <= fewer <= more
    requires Score(log10, snippet, stats.(viewCount := Value(fewer)), query).Success?
    ensures Score(log10, snippet, stats.(viewCount := Value(more)), query).Success?
    ensures Score(log10, snippet, stats.(viewCount := Value(fewer)), query).value
         <= Score(log10, snippet, stats.(viewCount := Value(more)), query).value
  {
    assert log10(fewer as real + 1.0) <= log10(more as real + 1.0);
  }

  /** For a fixed positive view count, more likes never lower the score. */
  lemma ScoreMonotoneInLikes(log10: real -> real, snippet: Snippet, stats: Statistics, query: Option<string>, fewer: int, more: int)
    requires stats.viewCount.Value? && stats.viewCount.n > 0
    requires fewer <= more
    requires Score(log10, snippet, stats.(likeCount := Value(fewer)), query).Success?
    ensures Score(log10, snippet, stats.(likeCount := Value(more)), query).Success?
    ensures Score(log10, snippet, stats.(likeCount := Value(fewer)), query).value
         <= Score(log10, snippet, stats.(likeCount := Value(more)), query).value
  {
    LikeTermMonotone(fewer, more, stats.viewCount.n);
  }

  /** A video with no views, likes or comments, searched with an empty query, scores exactly 0. */
  lemma ScoreOfBlankVideo(log10: real -> real, snippet: Snippet, stats: Statistics, query: Option<string>)
    requires Log10Like(log10)
    requires ReadsAsZero(stats.viewCount) && ReadsAsZero(stats.likeCount) && ReadsAsZero(stats.commentCount)
    requires query == None || query == Some("")
    ensures Score(log10, snippet, stats, query) == Success(0.0)
  {
  }

  /**
   * Two videos that differ only in their titles, one matching a non-empty query and
   * one not: the matching one scores exactly 1 more.
   */
  lemma TitleMatchAddsOne(log10: real -> real, snippet: Snippet, stats: Statistics, query: string, hit: string, miss: string)
    requires query != []
    requires MatchesIgnoringCase(hit, query) && !MatchesIgnoringCase(miss, query)
    requires Score(log10, snippet, stats, Some(query)).Success?
    ensures Score(log10, snippet.(title := Some(hit)), stats, Some(query)).Success?
    ensures Score(log10, snippet.(title := Some(hit)), stats, Some(query)).value
         == Score(log10, snippet.(title := Some(miss)), stats, Some(query)).value + 1.0
  {
  }

  /** A missing title and description earn no keyword bonus, whatever the query. */
  lemma NoTextNoBonus(log10: real -> real, stats: Statistics, query: Option<string>)
    ensures Score(log10, NoSnippet, stats, query) == Score(log10, NoSnippet, stats, None)
  {
    var q := query.GetOr("");
    assert !MatchesIgnoringCase("", q) || q == [] by {
      if q != [] {
        assert forall i :: !MatchesAt("", q, i);
      }
    }
  }

  /** 999,999,999 views and nothing else, with an empty query, score log10(10^9). */
  lemma BillionViewsScore(log10: real -> real)
    requires Log10Like(log10)
    ensures Score(log10, NoSnippet, NoStatistics.(viewCount := Value(999999999)), Some(""))
         == Success(log10(1000000000.0))
  {
  }
}
