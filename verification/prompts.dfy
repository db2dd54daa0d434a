/**
 * The prompt templates of llm.py: the completion prompt that asks for a summary
 * of a transcript, and the user message that asks for a quiz about a summary.
 * Both embed their input verbatim between fixed framing text, so each prompt
 * determines the input it was built from.
 */
module Prompts {
  import opened Wrappers
  import opened Text

  const SystemPromptSummary: string :=
    "You are a professional assistant skilled at summarizing long texts clearly and concisely."

  /** The framing of the summary prompt: system turn, then the opening of the user turn. */
  const SummaryOpening: string := "<system>" + SystemPromptSummary + "</system><user>"

  /** The end of the user turn and the opening of the assistant turn the model completes. */
  const SummaryClosing: string := "</user><assistant>"

  /** The line that announces the text, right before it. */
  const SummaryBodyLine: string := "[텍스트 본문]\n"

  const SummaryIntro: string := "\n다음은 사용자가 제공한 텍스트입니다.\n---\n"

  const SummaryRequest: string :=
    "\n---\n[요청]\n위 텍스트 본문의 핵심 주제와 주요 내용을 3줄로 간결하게 요약해 주고 난이도를 알려주세요.\n"

  /** Everything before the embedded text, and everything after it. */
  const SummaryHead: string := SummaryOpening + SummaryIntro + SummaryBodyLine
  const SummaryTail: string := SummaryRequest + SummaryClosing

  /** `format_summary_prompt(script_content)`. */
  function FormatSummaryPrompt(script: string): (r: string)
    ensures r == SummaryHead + script + SummaryTail
    ensures |r| == |SummaryHead| + |script| + |SummaryTail|
    ensures r[..|SummaryHead|] == SummaryHead
    ensures r[|r| - |SummaryTail|..] == SummaryTail
    ensures r[..|SummaryOpening|] == SummaryOpening
    ensures r[|r| - |SummaryClosing|..] == SummaryClosing
    ensures r[|SummaryHead| - |SummaryBodyLine|..|SummaryHead|] == SummaryBodyLine
    ensures r[|SummaryHead|..|SummaryHead| + |script|] == script
  {
    var userRequest := SummaryIntro + SummaryBodyLine + script + SummaryRequest;
    var r := SummaryOpening + userRequest + SummaryClosing;
    Regroup(SummaryOpening, SummaryIntro, SummaryBodyLine, script, SummaryRequest, SummaryClosing);
    PartsOfConcat(SummaryHead, script, SummaryTail);
    PartsOfConcat(SummaryOpening, userRequest, SummaryClosing);
    PartsOfConcat(SummaryOpening + SummaryIntro, SummaryBodyLine, script + SummaryTail);
    r
  }

  /** The text a summary prompt embeds, or None when `prompt` is not framed as one. */
  function SummaryScript(prompt: string): (r: Option<string>)
    ensures r.Some? ==> FormatSummaryPrompt(r.value) == prompt
  {
    Unframe(SummaryHead, SummaryTail, prompt)
  }

  /** The embedded text can be read back from a summary prompt. */
  lemma SummaryPromptRoundTrip(script: string)
    ensures SummaryScript(FormatSummaryPrompt(script)) == Some(script)
  {
    UnframeBySlices(SummaryHead, script, SummaryTail, FormatSummaryPrompt(script));
  }

  /** Different texts give different summary prompts. */
  lemma SummaryPromptInjective(a: string, b: string)
    requires FormatSummaryPrompt(a) == FormatSummaryPrompt(b)
    ensures a == b
  {
    SummaryPromptRoundTrip(a);
    SummaryPromptRoundTrip(b);
  }

  const QuizIntro: string := "\n다음은 어떤 강의/영상의 요약 내용입니다.\n---\n"

  /** The line that announces the summary, right before it. */
  const QuizBodyLine: string := "[요약 본문]\n"

  /** Everything before the embedded summary. */
  const QuizHead: string := QuizIntro + QuizBodyLine

  /** The text between the summary and the number of questions, ending in the request line's lead-in. */
  const QuizRequestLead: string := "\n---\n[요청]\n위 요약 내용을 바탕으로 한국어로 "

  /** Everything after the number of questions. */
  const QuizTail: string :=
    "개의 객관식 퀴즈를 만들어 주세요.\n\n각 퀴즈는:\n- 하나의 개념/포인트를 명확히 묻는 문제\n- 보기 4개를 가지는 객관식\n- 정답은 보기 중 하나\n- 간단한 해설 포함\n\n반드시 시스템이 지정한 JSON Schema 형식에 맞춰서만 출력하세요.\n"

  /**
   * `format_quiz_user_prompt(summary_content, num_questions)`, asking for five questions
   * by default: the summary and `str(num_questions)` embedded in the fixed framing.
   */
  function FormatQuizUserPrompt(summary: string, numQuestions: int := 5): (r: string)
    ensures |r| == |QuizHead| + |summary| + |QuizRequestLead| + |Decimal(numQuestions)| + |QuizTail|
    ensures r[..|QuizHead|] == QuizHead
    ensures r[|QuizHead|..|QuizHead| + |summary|] == summary
    ensures r[|r| - |QuizTail|..] == QuizTail
  {
    PartsOfConcat5(QuizHead, summary, QuizRequestLead, Decimal(numQuestions), QuizTail);
    QuizIntro + QuizBodyLine + summary + QuizRequestLead + Decimal(numQuestions) + QuizTail
  }

  /** Where each part of a quiz prompt sits: every piece is recovered by slicing at fixed offsets. */
  lemma QuizPromptLayout(summary: string, numQuestions: int)
    ensures var r := FormatQuizUserPrompt(summary, numQuestions);
            && |r| == |QuizHead| + |summary| + |QuizRequestLead| + |Decimal(numQuestions)| + |QuizTail|
            && r[..|QuizHead|] == QuizHead
            && r[|QuizHead| - |QuizBodyLine|..|QuizHead|] == QuizBodyLine
            && r[|QuizHead|..|QuizHead| + |summary|] == summary
            && r[|r| - |QuizTail|..] == QuizTail
            && var k := |QuizHead| + |summary| + |QuizRequestLead|;
               && r[k - |QuizRequestLead|..k] == QuizRequestLead
               && r[k..k + |Decimal(numQuestions)|] == Decimal(numQuestions)
  {
    PartsOfConcat5(QuizHead, summary, QuizRequestLead, Decimal(numQuestions), QuizTail);
    PartsOfConcat(QuizIntro, QuizBodyLine, summary + QuizRequestLead + Decimal(numQuestions) + QuizTail);
  }

  /** A quiz prompt determines both the summary and the number of questions it was built from. */
  lemma QuizPromptDeterminesInputs(summary1: string, n1: int, summary2: string, n2: int)
    requires FormatQuizUserPrompt(summary1, n1) == FormatQuizUserPrompt(summary2, n2)
    ensures summary1 == summary2 && n1 == n2
  {
    QuizPromptMiddle(summary1, n1);
    QuizPromptMiddle(summary2, n2);
    assert QuizRequestLead[|QuizRequestLead| - 1] == ' ';
    SplitBeforeDecimal(summary1, Decimal(n1), summary2, Decimal(n2), QuizRequestLead);
    DecimalInjective(n1, n2);
  }

  /** Between the fixed head and tail, a quiz prompt holds the summary, the lead-in and the number. */
  lemma QuizPromptMiddle(summary: string, n: int)
    ensures var p := FormatQuizUserPrompt(summary, n);
            p[|QuizHead|..|p| - |QuizTail|] == summary + QuizRequestLead + Decimal(n)
  {
    GroupMiddle(QuizHead, summary, QuizRequestLead, Decimal(n), QuizTail);
    PartsOfConcat(QuizHead, summary + QuizRequestLead + Decimal(n), QuizTail);
  }
}
