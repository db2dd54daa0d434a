/**
 * What `generate_quiz` in llm.py does with the model's reply: parse it as JSON
 * and hand back the `quizzes` list, or an empty list whenever anything is off.
 * The reply text is an input (the chat-completion call is not modelled) and
 * `json.loads` is a parameter `parse` that yields the parsed value or None when
 * it raises.
 */
module Quiz {
  import opened Wrappers

  /** A value `json.loads` can produce; objects are dictionaries (the last duplicate key wins). */
  datatype Json =
    | JNull
    | JBool(b: bool)
    | JNumber(n: real)
    | JString(s: string)
    | JArray(items: seq<Json>)
    | JObject(fields: map<string, Json>)

  /** The `quizzes` list of a parsed reply, or `[]` when there is none. */
  function QuizzesOf(data: Json): (r: seq<Json>)
    ensures data.JObject? && "quizzes" in data.fields && data.fields["quizzes"].JArray? ==>
              r == data.fields["quizzes"].items
    ensures !(data.JObject? && "quizzes" in data.fields && data.fields["quizzes"].JArray?) ==> r == []
  {
    match data
    case JObject(fields) =>
      // `data.get("quizzes", [])`, then `isinstance(quizzes, list)`
      var quizzes := if "quizzes" in fields then fields["quizzes"] else JArray([]);
      if quizzes.JArray? then quizzes.items else []
    case _ =>
      // `.get` on anything but a dict raises AttributeError, which is caught
      []
  }

  /**
   * The tail of `generate_quiz`: `content` is the reply's message content (None when
   * the reply carries none, which makes `json.loads` raise TypeError).
   */
  function ExtractQuizzes(parse: string -> Option<Json>, content: Option<string>): (r: seq<Json>)
    ensures r != [] ==> content.Some? && parse(content.value).Some?
    ensures r != [] ==> parse(content.value).value.JObject?
    ensures r != [] ==> "quizzes" in parse(content.value).value.fields
    ensures r != [] ==> parse(content.value).value.fields["quizzes"] == JArray(r)
    ensures content.Some? && parse(content.value).Some? && parse(content.value).value.JObject?
            && "quizzes" in parse(content.value).value.fields
            && parse(content.value).value.fields["quizzes"].JArray?
            ==> r == parse(content.value).value.fields["quizzes"].items
  {
    match content
    case None => []
    case Some(text) =>
      match parse(text)
      case None => []
      case Some(data) => QuizzesOf(data)
  }

  /** A reply that parses to an object whose `quizzes` value is a list yields that list unchanged. */
  lemma QuizListReturnedUnchanged(parse: string -> Option<Json>, content: string, fields: map<string, Json>, items: seq<Json>)
    requires parse(content) == Some(JObject(fields))
    requires "quizzes" in fields && fields["quizzes"] == JArray(items)
    ensures ExtractQuizzes(parse, Some(content)) == items
  {
  }

  /** A reply without a `quizzes` key yields no quizzes. */
  lemma MissingQuizzesYieldsEmpty(parse: string -> Option<Json>, content: string, fields: map<string, Json>)
    requires parse(content) == Some(JObject(fields))
    requires "quizzes" !in fields
    ensures ExtractQuizzes(parse, Some(content)) == []
  {
  }

  /** A `quizzes` value that is not a list yields no quizzes. */
  lemma NonListQuizzesYieldsEmpty(parse: string -> Option<Json>, content: string, fields: map<string, Json>)
    requires parse(content) == Some(JObject(fields))
    requires "quizzes" in fields && !fields["quizzes"].JArray?
    ensures ExtractQuizzes(parse, Some(content)) == []
  {
  }

  /** A reply that does not parse, or parses to something other than an object, yields no quizzes. */
  lemma UnusableReplyYieldsEmpty(parse: string -> Option<Json>, content: Option<string>)
    requires content == None || parse(content.value) == None || !parse(content.value).value.JObject?
    ensures ExtractQuizzes(parse, content) == []
  {
  }

  /** The shape the quiz page expects of each item: four options and an answer index among them. */
  predicate WellFormedQuizItem(item: Json) {
    && item.JObject?
    && "question" in item.fields && item.fields["question"].JString?
    && "options" in item.fields && item.fields["options"].JArray?
    && |item.fields["options"].items| == 4
    && (forall o :: o in item.fields["options"].items ==> o.JString?)
    && "answer_index" in item.fields && item.fields["answer_index"].JNumber?
    && item.fields["answer_index"].n in {0.0, 1.0, 2.0, 3.0}
    && "explanation" in item.fields && item.fields["explanation"].JString?
  }

  /**
   * No item is checked: a list holding an item with two options and answer index 7
   * comes back as it is.
   */
  lemma ItemsAreNotValidated(parse: string -> Option<Json>, content: string)
    requires parse(content) == Some(JObject(map["quizzes" := JArray([JObject(map[
      "question" := JString("Q"),
      "options" := JArray([JString("a"), JString("b")]),
      "answer_index" := JNumber(7.0),
      "explanation" := JString("")])])]))
    ensures |ExtractQuizzes(parse, Some(content))| == 1
    ensures !WellFormedQuizItem(ExtractQuizzes(parse, Some(content))[0])
  {
  }
}
