/** The request and response records the backend exchanges with the
    front end, and how a request body is validated into one. A JSON field
    is either absent, `null`, or given; each record states what it does
    with each of the three. */
module Schemas {
  import opened Common
  import Settings

  // ---------------------------------------------------------------------------
  // Levels

  /** The three difficulty levels a request may name. */
  datatype Level = Basic | Intermediate | Advanced

  function LevelValue(level: Level): string {
    match level
    case Basic => "Basic"
    case Intermediate => "Intermediate"
    case Advanced => "Advanced"
  }

  /** Validation of a level string: it must be one of the three values, exactly. */
  function ParseLevel(s: string): (r: Option<Level>)
    ensures r.Some? <==> s == "Basic" || s == "Intermediate" || s == "Advanced"
    ensures r.Some? ==> LevelValue(r.value) == s
  {
    if s == "Basic" then Some(Basic)
    else if s == "Intermediate" then Some(Intermediate)
    else if s == "Advanced" then Some(Advanced)
    else None
  }

  lemma LevelRoundTrip(level: Level)
    ensures ParseLevel(LevelValue(level)) == Some(level)
  {
  }

  // ---------------------------------------------------------------------------
  // Fields of a JSON body

  datatype Field<+T> = Absent | Null | Given(value: T)

  /** A required field: it must be given. */
  function Required<T>(f: Field<T>): Option<T> {
    if f.Given? then Some(f.value) else None
  }

  /** A field of type `str` with a default: absent gives the default, `null` is refused. */
  function Defaulted<T>(f: Field<T>, default: T): Option<T> {
    match f
    case Absent => Some(default)
    case Null => None
    case Given(v) => Some(v)
  }

  /** An `Optional` field whose default is `None`: absent and `null` both give `None`. */
  function Nullable<T>(f: Field<T>): Option<T> {
    if f.Given? then Some(f.value) else None
  }

  // ---------------------------------------------------------------------------
  // Text generation

  datatype GeneratedTextRequest = GeneratedTextRequest(
    topic: string, language: string, level: Level, style: string,
    provider: string, model: Option<string>)

  datatype TextRequestBody = TextRequestBody(
    topic: Field<string>, language: Field<string>, level: Field<string>,
    style: Field<string>, provider: Field<string>, model: Field<string>)

  /** Validation of a text-generation body: topic, language, level and
      style are required and the level must be one of the three values;
      the provider defaults to "ollama" and the model to `None`. */
  function ValidateTextRequest(body: TextRequestBody): (r: Option<GeneratedTextRequest>)
    ensures r.Some? <==>
      && body.topic.Given? && body.language.Given? && body.style.Given?
      && body.level.Given? && ParseLevel(body.level.value).Some?
      && !body.provider.Null?
    ensures r.Some? ==>
      && r.value.topic == body.topic.value
      && r.value.language == body.language.value
      && LevelValue(r.value.level) == body.level.value
      && r.value.style == body.style.value
      && r.value.provider == (if body.provider.Given? then body.provider.value else Settings.OllamaProvider)
      && (r.value.model.Some? <==> body.model.Given?)
      && (body.model.Given? ==> r.value.model == Some(body.model.value))
  {
    var level := if body.level.Given? then ParseLevel(body.level.value) else None;
    var provider := Defaulted(body.provider, Settings.OllamaProvider);
    if body.topic.Given? && body.language.Given? && body.style.Given? && level.Some? && provider.Some? then
      Some(GeneratedTextRequest(body.topic.value, body.language.value, level.value,
                                body.style.value, provider.value, Nullable(body.model)))
    else None
  }

  /** A generated passage with its calibration record. `score` may be left
      out (it is then `None`); the last three fields must be present but may
      be `None`. */
  datatype GeneratedTextResponse = GeneratedTextResponse(
    generatedText: string, score: Option<real>, level: string, language: string,
    style: string, iterations: Option<int>, failedTexts: Option<seq<string>>,
    promptsUsed: Option<seq<string>>)

  // ---------------------------------------------------------------------------
  // Question generation

  /** One multiple-choice question. Nothing ties `answer` to `choices` and
      nothing fixes the number of choices. */
  datatype Question = Question(question: string, choices: seq<string>, answer: string)

  datatype GenerateQuestionsRequest = GenerateQuestionsRequest(
    generatedText: string, numQuestions: int, language: string, choicesNum: int,
    provider: string, model: Option<string>)

  datatype QuestionsRequestBody = QuestionsRequestBody(
    generatedText: Field<string>, numQuestions: Field<int>, language: Field<string>,
    choicesNum: Field<int>, provider: Field<string>, model: Field<string>)

  /** Validation of a question-generation body: every field but the model is
      required, the provider included; the model defaults to `None`. */
  function ValidateQuestionsRequest(body: QuestionsRequestBody): (r: Option<GenerateQuestionsRequest>)
    ensures r.Some? <==>
      && body.generatedText.Given? && body.numQuestions.Given? && body.language.Given?
      && body.choicesNum.Given? && body.provider.Given?
    ensures r.Some? ==>
      && r.value.generatedText == body.generatedText.value
      && r.value.numQuestions == body.numQuestions.value
      && r.value.language == body.language.value
      && r.value.choicesNum == body.choicesNum.value
      && r.value.provider == body.provider.value
      && (r.value.model.Some? <==> body.model.Given?)
      && (body.model.Given? ==> r.value.model == Some(body.model.value))
  {
    match (Required(body.generatedText), Required(body.numQuestions), Required(body.language),
           Required(body.choicesNum), Required(body.provider))
    case (Some(text), Some(n), Some(language), Some(c), Some(provider)) =>
      Some(GenerateQuestionsRequest(text, n, language, c, provider, Nullable(body.model)))
    case _ => None
  }

  datatype GenerateQuestionsResponse = GenerateQuestionsResponse(questions: seq<Question>)
}
