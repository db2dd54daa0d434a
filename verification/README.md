# Study companion core: video ranking and quiz extraction

This project models the two pieces of pure logic inside a student study companion
(a Streamlit app that finds YouTube videos for a syllabus, summarises their
transcripts with a local language model and builds quizzes from the summaries).

- **Video relevance ranking** (`utils/youtube_api2.py`). `_compute_score` turns a
  video's statistics and snippet into one score: `log10(views + 1)`, plus ten times
  the like/view ratio (0 without views), plus half of `log10(comments + 1)`, plus a
  keyword bonus of 1 for a title and 1 for a description that contains the query,
  ignoring case. `search_youtube_videos` builds one record per returned video and
  sorts the records by score, highest first, with a stable sort.
  Modules `Scoring` and `Ranking`, with worked two-video rankings in `RankingScenarios`.
- **Prompts and quiz extraction** (`llm.py`). `format_summary_prompt` and
  `format_quiz_user_prompt` embed their input verbatim in fixed framing text
  (module `Prompts`). `generate_quiz` parses the model's reply and returns its
  `quizzes` list only when the reply is an object whose `quizzes` value is a list.
  In every other case it returns `[]` and never raises (module `Quiz`).
- Shared pieces: `Wrappers` (Option, Result) and `Text` (ASCII lower-casing,
  substring search, decimal rendering of integers, framing helpers).

Modelling choices:

- Scores are reals. `math.log10` is a parameter `log10: real -> real`. The lemmas
  that need facts about it require `Scoring.Log10Like`: `log10(1) = 0` and `log10`
  is monotone on the positive reals.
- A statistics field is `Absent`, a `Value(n)` that `int(...)` accepts, or
  `Malformed` (a value `int(...)` rejects, with ValueError or TypeError). Each
  exception the count parsing or `math.log10` can raise is a `Failure` naming the
  field. A malformed count is reported, not coerced to 0, and negative counts are
  not clamped, although the code's own comment at utils/youtube_api2.py:17 calls
  the parsing safe. A negative like count passes through. A negative view or
  comment count makes `math.log10(count + 1)` raise a math domain error.
- `json.loads` is a parameter `parse: string -> Option<Json>`, with `None` meaning
  the parse raised. The reply content is an input.

## Model

| member | source | states |
|---|---|---|
| Text.ContainsIffOccurs | utils/youtube_api2.py:39-41 | Python's `needle in haystack`: true exactly when some window of the haystack equals the needle. So the empty needle is contained in every string |
| Text.Lower | utils/youtube_api2.py:33-35 | `.lower()` keeps the length and lower-cases each character on its own, ASCII only |
| Text.Decimal | llm.py:62 | `str(n)` is non-empty and made only of digits and a leading minus sign, present exactly when `n` is negative. Its digits have no leading zero unless the whole rendering is `0` |
| Text.DecimalRoundTrip | llm.py:62 | Reading the decimal rendering of `n` back as a number gives `n` |
| Text.SplitBeforeDecimal | llm.py:61-62 | A string shaped `text + lead-in + number`, where the lead-in ends in a character no number contains, splits only one way |
| Scoring.MissingCountReadsAsZero | utils/youtube_api2.py:18-20 | A missing view, like or comment count gives the same score, or the same error, as an explicit count of 0 |
| Scoring.ScoreErrorOrder | utils/youtube_api2.py:18-30 | The error raised names the first malformed count in the order views, likes, comments. Only when all three parse does a negative view count, and then a negative comment count, raise a math domain error |
| Scoring.LikeTerm | utils/youtube_api2.py:26-27 | With no views the like term is exactly 0, whatever the like count. With views it is the value whose product with the view count is ten times the likes, so nothing is divided by zero |
| Scoring.LikeTermMonotone | utils/youtube_api2.py:26-27 | For a fixed positive view count, the like term never falls as the like count grows |
| Scoring.ContainsLowerIffMatches | utils/youtube_api2.py:33-41 | Searching the lower-cased query in the lower-cased text succeeds exactly when some window of the text equals the query ignoring case |
| Scoring.KeywordBonus | utils/youtube_api2.py:32-42 | The bonus is 0, 1 or 2. It is 0 for an empty query. Otherwise a title match and a description match, each ignoring case, add exactly 1 each, independently |
| Scoring.KeywordBonusIgnoresCase | utils/youtube_api2.py:33-35 | Upper-casing the query, the title and the description leaves the bonus unchanged |
| Scoring.Score | utils/youtube_api2.py:12-51 | Scoring raises exactly when a count is malformed or the view or comment count is negative |
| Scoring.ScoreDecomposes | utils/youtube_api2.py:45-50 | For valid counts the score is the view term plus the like term plus half the comment term plus the keyword bonus, with a missing title, description or query read as empty |
| Scoring.ScoreIgnoresLikesWithoutViews | utils/youtube_api2.py:26-27 | With zero or missing views, changing the like count does not change the score |
| Scoring.ScoreMonotoneInComments | utils/youtube_api2.py:30 | With a monotone log10, more comments never lower the score |
| Scoring.ScoreMonotoneInViewsWithoutLikes | utils/youtube_api2.py:23-27 | With a monotone log10 and no likes, more views never lower the score |
| Scoring.ScoreMonotoneInLikes | utils/youtube_api2.py:26-27 | For a fixed positive view count, more likes never lower the score |
| Scoring.ScoreOfBlankVideo | utils/youtube_api2.py:18-50 | All counts zero or missing and an empty or None query give a score of exactly 0, whatever the snippet |
| Scoring.TitleMatchAddsOne | utils/youtube_api2.py:38-40 | Two videos that differ only in the title, one matching a non-empty query and one not, differ in score by exactly 1 |
| Scoring.NoTextNoBonus | utils/youtube_api2.py:33-34 | A missing title and description act as empty strings. They earn no bonus for any query |
| Scoring.BillionViewsScore | utils/youtube_api2.py:18-30 | 999,999,999 views, nothing else and an empty query score exactly log10(10^9) |
| Ranking.BuildRecords | utils/youtube_api2.py:96-117 | If every item scores, the result has one record per item, in item order, with that item's id and score. Otherwise the result is the error of the first item whose scoring raises |
| Ranking.Insert | utils/youtube_api2.py:120 | Inserting into a list ordered by falling score keeps it ordered, and adds exactly the one record |
| Ranking.SortByScoreDescending | utils/youtube_api2.py:120 | The result is a permutation of the input with scores non-increasing |
| Ranking.SortIsStable | utils/youtube_api2.py:120 | For every score value, the records with that score appear in the same order as in the input |
| Ranking.Rank | utils/youtube_api2.py:96-121 | The ranking fails exactly when building the records fails. Otherwise it has as many records as items and is a permutation of the records, highest score first, ties in input order. No items give an empty ranking |
| RankingScenarios.SortPair | utils/youtube_api2.py:120 | Two records with different scores come out higher score first, whichever order they went in |
| RankingScenarios.TitleMatchRanksFirst | utils/youtube_api2.py:96-121 | Of two videos with the same statistics and no description, the one whose title matches a non-empty query ranks first, whichever order the search returned them in |
| RankingScenarios.PhotosynthesisScenario | utils/youtube_api2.py:96-121 | "Photosynthesis basics" ranks above "Unrelated topic" for the query "Photosynthesis" when the counts are equal and there are no descriptions, in either input order, whatever the logarithm |
| Prompts.FormatSummaryPrompt | llm.py:39-49 | The prompt starts with the system turn and the opening `<user>` tag, ends with `</user><assistant>`, and holds the text verbatim right after the `[텍스트 본문]` line |
| Prompts.SummaryScript | llm.py:39-49 | Whatever text it reads back from a prompt is the text that rebuilds that prompt |
| Prompts.SummaryPromptRoundTrip | llm.py:39-49 | The text embedded in a summary prompt is read back unchanged |
| Prompts.SummaryPromptInjective | llm.py:39-49 | Different texts give different summary prompts |
| Prompts.FormatQuizUserPrompt | llm.py:52-71 | The prompt starts with the fixed head ending in the `[요약 본문]` line, holds the summary verbatim right after it, and ends with the fixed tail. Its length is the parts' lengths added up, with the question count (5 by default) in decimal |
| Prompts.QuizPromptLayout | llm.py:52-71 | The summary, the lead-in, the number and the tail each sit at a fixed offset of the prompt and are recovered by slicing |
| Prompts.QuizPromptDeterminesInputs | llm.py:52-71 | A quiz prompt determines both the summary and the question count it was built from |
| Quiz.QuizzesOf | llm.py:180-184 | The parsed value's `quizzes` list when it is an object whose `quizzes` value is a list, and `[]` otherwise |
| Quiz.ExtractQuizzes | llm.py:176-187 | The result equals the `quizzes` list when the reply parses to an object holding a list there. A non-empty result always comes from such a reply |
| Quiz.QuizListReturnedUnchanged | llm.py:179-183 | A reply parsing to an object whose `quizzes` value is a list yields that list unchanged |
| Quiz.MissingQuizzesYieldsEmpty | llm.py:180-184 | An object without a `quizzes` key yields `[]` |
| Quiz.NonListQuizzesYieldsEmpty | llm.py:182-184 | A `quizzes` value that is not a list yields `[]` |
| Quiz.UnusableReplyYieldsEmpty | llm.py:178-187 | No content, a parse failure, or a top-level value that is not an object yields `[]` |
| Quiz.ItemsAreNotValidated | llm.py:181-183 | An item with two options and answer index 7 is returned as it is, although it is not a well-formed quiz item |

## Left out

- The quiz system prompt (llm.py:32-36): it is only used in the message list, which is left out below.
- Model loading at import time, the hard-coded model path and its prints (llm.py:9-21): environment and I/O.
- The inference calls `model(...)` and `model.create_chat_completion(...)`, with their sampling parameters (llm.py:82-90, 165-174): foreign library calls. Their reply text is an input.
- `summarize_text` (llm.py:77-91): it only calls the model and strips the reply.
- The message list passed to the chat call (llm.py:154-163): it is input to the foreign call. Only its user content, `FormatQuizUserPrompt`, is modelled.
- The JSON schema literal (llm.py:123-152): it constrains the external model, and no code checks a reply against it.
- Reading `response["choices"][0]["message"]["content"]` (llm.py:176): the shape of a foreign response. Only the content, as an `Option<string>`, is modelled.
- `json.loads` internals: parsing is the parameter `parse`.
- The YouTube client: `build`, `search().list`, `videos().list`, the API-key check and dotenv loading (utils/youtube_api2.py:7-9, 72-94): network and environment I/O. The early `return []` for a search without results (line 87-88) gives the same result as ranking no items.
- The thumbnail, channel, publish date and count fields of a result record (utils/youtube_api2.py:105-114): a record carries only the video id and the score.
- Non-dict `statistics`, `snippet`, `thumbnails` or `thumbnails.default` values (utils/youtube_api2.py:98-99, 108-110), on which `.get` raises AttributeError: items are assumed to have the shape the API returns, so record building succeeds whenever every item scores.
- IEEE double behaviour of `math.log10`, of the division and of the sums: scores are reals, and `log10` is an uninterpreted parameter.
- The OverflowError that `like_count / view_count` raises when the counts are too large for a float: the division is exact on reals.
- Text.Lower: maps only ASCII A-Z. Python's full Unicode case mapping, including mappings that change the length of a string, is not modelled.
- Scoring.MissingCountReadsAsZero: `int()` parsing of the field's text (whitespace, signs, underscores) is not modelled. A field is either a value `int()` accepts or `Malformed`.
- Scoring.BillionViewsScore: states the score as `log10(10^9)`. It cannot state the value 9, because `log10` is only known to be monotone with `log10(1) = 0`.
- Non-string titles or descriptions, on which `.lower()` would raise: snippet texts are strings or missing.
