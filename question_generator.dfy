/** The question generator of the backend: a reading passage in, a set of
    multiple-choice questions out. A blank passage is refused, the provider
    name picks the Ollama or the Groq path (compared exactly), and either
    path sends one request and validates the reply against
    `GenerateQuestionsResponse`.

    The model's reply and the JSON validation are inputs: a `Responder`
    gives the reply to a request, and a `Validator` says whether a reply
    parses into a `GenerateQuestionsResponse`. */
module QuestionGenerator {
  import opened Common
  import opened Strings
  import Settings
  import Schemas
  import opened LlmProvider

  /** A `QuestionGenerator`: the model it uses and the provider name. */
  datatype QuestionGenerator = QuestionGenerator(model: string, provider: string) {
    /** The `LLMProvider` the Groq path talks through. */
    function Llm(): Provider {
      Provider(provider, model)
    }
  }

  /** `QuestionGenerator(model, provider)`: a missing model is the Groq default
      when the provider lower-cased is "groq" and the Ollama default otherwise. */
  function NewQuestionGenerator(model: Option<string>, provider: string): (qg: QuestionGenerator)
    ensures qg.provider == provider
    ensures model.Some? ==> qg.model == model.value
    ensures model.None? ==> (qg.model == Settings.GroqModel <==> Lower(provider) == Settings.GroqProvider)
    ensures model.None? ==> (qg.model == Settings.OllamaModel <==> Lower(provider) != Settings.GroqProvider)
  {
    QuestionGenerator(Settings.ResolveModel(model, provider), provider)
  }

  // ---------------------------------------------------------------------------
  // Calls and replies

  /** What the generator sends: Ollama's chat call, made directly with a
      response format and options, or a request built by the provider. */
  datatype Call =
    | OllamaChat(model: string, messages: seq<Message>, format: string, temperature: real)
    | Provided(request: Request)

  /** What came back: the content of the reply, or the message of the
      exception the call raised. */
  datatype Reply = Content(text: string) | Failure(message: string)

  type Responder = Call -> Reply

  /** The outcome of validating a reply as a `GenerateQuestionsResponse`:
      the validated response, or the text of the parse or validation error. */
  datatype Validation = Valid(response: Schemas.GenerateQuestionsResponse) | Invalid(reason: string)

  type Validator = string -> Validation

  /** The temperature both paths ask for. */
  const QuestionTemperature: real := 0.5

  // ---------------------------------------------------------------------------
  // The prompt

  /** The count of questions the prompt asks for. */
  function QuestionCount(n: int): string {
    "exactly " + IntToString(n) + " multiple-choice comprehension questions"
  }

  /** The count of choices the prompt asks for in each question. */
  function ChoiceCount(c: int): string {
    "exactly " + IntToString(c) + " plausible answer choices"
  }

  const PassageOpen: string := "\n        Reading Passage ("
  const PassageRule: string := "):\n        ---\n        "
  const PassageClose: string := "\n        ---\n\n        "

  /** The passage, quoted between two `---` lines under its language. */
  function PassageBlock(language: string, text: string): string {
    PassageOpen + language + PassageRule + text + PassageClose
  }

  const TaskLead: string := "Task: Based *only* on the reading passage above, generate "
  const ChoiceLead: string := ".\n        For each question:\n        1.  Provide the question itself.\n        2.  Provide "
  const AnswerRules: string :=
    " (options). One choice must be the correct answer based on the text.\n        3.  Clearly indicate the correct answer.\n        4.  All questions, choices, and the answer text MUST be in the same language as the reading passage ("
  const FormatRules: string :=
    ").\n\n        Format the output as a JSON object containing a single key \"questions\", which is a list of question objects.\n        Each question object should have the keys \"question\" (string), \"choices\" (list of "
  const ExampleHead: string :=
    " strings), and \"answer\" (string - the correct choice text).\n\n        Example JSON structure:\n        {\n          \"questions\": [\n            {\n              \"question\": \"Sample question in "
  const ExampleChoices: string := "?\",\n              \"choices\": [\"Choice A in "
  const ExampleAnswer: string := "\"],\n              \"answer\": \"Choice B in "
  const ExampleTail: string :=
    "\"\n            },\n            // ... more question objects\n          ]\n        }\n\n        Generate the JSON output now based on the provided passage.\n        "

  /** The rules after the choice count, the JSON format and the example. */
  function FormatBlock(c: int, language: string): string {
    AnswerRules + language + FormatRules + IntToString(c) + ExampleHead
    + language + ExampleChoices + language + "\", \"Choice B in " + language + "\", \"Choice C in "
    + language + ExampleAnswer + language + ExampleTail
  }

  function ChoiceBlock(c: int, language: string): string {
    ChoiceLead + ChoiceCount(c) + FormatBlock(c, language)
  }

  function TaskBlock(n: int, c: int, language: string): string {
    TaskLead + QuestionCount(n) + ChoiceBlock(c, language)
  }

  /** The user message: the passage and the task, indented as written and
      not stripped. */
  function QuestionPrompt(text: string, n: int, language: string, c: int): string {
    PassageBlock(language, text) + TaskBlock(n, c, language)
  }

  /** The prompt quotes the passage verbatim and asks for exactly `n`
      questions with exactly `c` choices each. */
  lemma QuestionPromptAsks(text: string, n: int, language: string, c: int)
    ensures Contains(QuestionPrompt(text, n, language, c), text)
    ensures Contains(QuestionPrompt(text, n, language, c), QuestionCount(n))
    ensures Contains(QuestionPrompt(text, n, language, c), ChoiceCount(c))
  {
    var passage, task := PassageBlock(language, text), TaskBlock(n, c, language);
    ContainsInfix(PassageOpen + language + PassageRule, text, PassageClose);
    ContainsExtend(passage, task, text);
    ContainsInfix(TaskLead, QuestionCount(n), ChoiceBlock(c, language));
    ContainsExtend(task, passage, QuestionCount(n));
    ContainsInfix(ChoiceLead, ChoiceCount(c), FormatBlock(c, language));
    ContainsExtend(ChoiceBlock(c, language), TaskLead + QuestionCount(n), ChoiceCount(c));
    ContainsExtend(task, passage, ChoiceCount(c));
  }

  // ---------------------------------------------------------------------------
  // System messages

  const SystemHead: string :=
    "You are an AI assistant specialized in creating multiple-choice comprehension questions based on provided text. Respond ONLY with the requested JSON object containing the questions. Ensure all text content (questions, choices, answers) is in "

  /** The Ollama system message: JSON only, in the passage's language. */
  function OllamaSystem(language: string): string {
    SystemHead + language + "."
  }

  /** The Groq system message repeats the Ollama one and adds both counts. */
  function GroqSystem(n: int, language: string, c: int): string {
    OllamaSystem(language) + " you need to make sure that there are exactly " + IntToString(n)
    + " questions and " + IntToString(c) + " choices for each question."
  }

  // ---------------------------------------------------------------------------
  // Generation

  /** The prefix of every error raised once a provider path has started. */
  function Wrapped(model: string, message: string): Raised {
    Exception("Error generating questions with model " + model + ": " + message)
  }

  const ParseFailure: string := "Could not parse valid JSON questions from the model: "

  /** What a provider path makes of the reply: a validated response is
      returned as it is, whatever its number of questions; a reply that does
      not validate raises the parse error; and every error is re-raised
      wrapped with the model. */
  function Answer(model: string, reply: Reply, validate: Validator): (r: Result<Schemas.GenerateQuestionsResponse, Raised>)
    ensures r.Ok? <==> reply.Content? && validate(reply.text).Valid?
    ensures r.Ok? ==> r.value == validate(reply.text).response
    ensures reply.Failure? ==> r == Err(Wrapped(model, reply.message))
    ensures reply.Content? && validate(reply.text).Invalid? ==>
      r == Err(Wrapped(model, ParseFailure + validate(reply.text).reason))
  {
    match reply
    case Failure(message) => Err(Wrapped(model, message))
    case Content(text) =>
      match validate(text)
      case Valid(response) => Ok(response)
      case Invalid(reason) => Err(Wrapped(model, ParseFailure + reason))
  }

  /** `_generate_questions_ollama`: one direct chat call with the system
      message and the prompt, JSON format and temperature 0.5. */
  function OllamaQuestions(qg: QuestionGenerator, responder: Responder, validate: Validator,
                           prompt: string, language: string): Result<Schemas.GenerateQuestionsResponse, Raised>
  {
    var messages := [Message("system", OllamaSystem(language)), Message("user", prompt)];
    Answer(qg.model, responder(OllamaChat(qg.model, messages, "json", QuestionTemperature)), validate)
  }

  /** `_generate_questions_groq`: one call through the provider with the
      system message and the prompt, temperature 0.5 and a JSON-object
      response format. */
  function GroqQuestions(qg: QuestionGenerator, responder: Responder, validate: Validator,
                         prompt: string, n: int, language: string, c: int): Result<Schemas.GenerateQuestionsResponse, Raised>
  {
    var messages := [Message("system", GroqSystem(n, language, c)), Message("user", prompt)];
    match qg.Llm().Generate(messages, Options(Some(QuestionTemperature), Some("json_object")))
    case Ok(request) => Answer(qg.model, responder(Provided(request)), validate)
    case Err(e) => Err(Wrapped(qg.model, e.message))
  }

  /** The provider dispatch: exactly "ollama" or exactly "groq"; any other
      name is the only way to a `ValueError`. What the two paths send is
      stated by `DispatchAnswers`. */
  function Dispatch(qg: QuestionGenerator, responder: Responder, validate: Validator,
                    prompt: string, n: int, language: string, c: int): (r: Result<Schemas.GenerateQuestionsResponse, Raised>)
    ensures qg.provider != "ollama" && qg.provider != "groq" ==> r == Err(ValueError("Unknown provider: " + qg.provider))
    ensures (r.Err? && r.error.ValueError?) <==> qg.provider != "ollama" && qg.provider != "groq"
  {
    if qg.provider == "ollama" then
      OllamaQuestions(qg, responder, validate, prompt, language)
    else if qg.provider == "groq" then
      GroqQuestions(qg, responder, validate, prompt, n, language, c)
    else
      Err(ValueError("Unknown provider: " + qg.provider))
  }

  /** `generate_questions`: a passage made of whitespace only is refused
      before anything is sent; otherwise the prompt goes to the provider
      path. */
  function GenerateQuestions(qg: QuestionGenerator, responder: Responder, validate: Validator,
                             text: string, n: int, language: string, c: int): (r: Result<Schemas.GenerateQuestionsResponse, Raised>)
    ensures AllSpace(text) ==> r == Err(ValueError("Generated text cannot be empty"))
    ensures !AllSpace(text) ==> r == Dispatch(qg, responder, validate, QuestionPrompt(text, n, language, c), n, language, c)
  {
    StripEmptyIffAllSpace(text);
    if Strip(text) == [] then Err(ValueError("Generated text cannot be empty"))
    else Dispatch(qg, responder, validate, QuestionPrompt(text, n, language, c), n, language, c)
  }

  // ---------------------------------------------------------------------------
  // Properties

  /** The request the Ollama path sends: the model, the system message and
      the prompt, JSON format, temperature 0.5. */
  function OllamaCall(qg: QuestionGenerator, prompt: string, language: string): Call {
    OllamaChat(qg.model, [Message("system", OllamaSystem(language)), Message("user", prompt)], "json", QuestionTemperature)
  }

  /** The request the Groq path sends: a Groq chat payload with the model,
      both messages unchanged, temperature 0.5 and a JSON-object format. */
  function GroqCall(qg: QuestionGenerator, prompt: string, n: int, language: string, c: int): Call {
    Provided(GroqChat(qg.model, [Message("system", GroqSystem(n, language, c)), Message("user", prompt)],
                      QuestionTemperature, Some("json_object")))
  }

  /** The call a known provider makes and the reply it gets decide the
      result: for "ollama" the direct chat call, for "groq" the Groq payload
      built by the provider. */
  lemma DispatchAnswers(qg: QuestionGenerator, responder: Responder, validate: Validator,
                        prompt: string, n: int, language: string, c: int)
    requires qg.provider == "ollama" || qg.provider == "groq"
    ensures var call := if qg.provider == "ollama" then OllamaCall(qg, prompt, language) else GroqCall(qg, prompt, n, language, c);
      Dispatch(qg, responder, validate, prompt, n, language, c) == Answer(qg.model, responder(call), validate)
  {
    if qg.provider == "groq" {
      var messages := [Message("system", GroqSystem(n, language, c)), Message("user", prompt)];
      GroqRequest(qg.Llm(), messages, Options(Some(QuestionTemperature), Some("json_object")));
    }
  }

  /** A reply that validates is returned unchanged, even when it holds a
      different number of questions than was asked for. */
  lemma CountMismatchPassesThrough(qg: QuestionGenerator, responder: Responder, validate: Validator,
                                   text: string, n: int, language: string, c: int,
                                   response: Schemas.GenerateQuestionsResponse)
    requires qg.provider == "ollama" || qg.provider == "groq"
    requires !AllSpace(text)
    requires var prompt := QuestionPrompt(text, n, language, c);
      var call := if qg.provider == "ollama" then OllamaCall(qg, prompt, language) else GroqCall(qg, prompt, n, language, c);
      responder(call).Content? && validate(responder(call).text) == Valid(response)
    requires |response.questions| != n
    ensures GenerateQuestions(qg, responder, validate, text, n, language, c) == Ok(response)
  {
    DispatchAnswers(qg, responder, validate, QuestionPrompt(text, n, language, c), n, language, c);
  }

  /** A reply that does not validate raises the parse error, wrapped once
      more with the model. */
  lemma ParseFailureIsWrapped(qg: QuestionGenerator, responder: Responder, validate: Validator,
                              text: string, n: int, language: string, c: int, reason: string)
    requires qg.provider == "ollama" || qg.provider == "groq"
    requires !AllSpace(text)
    requires var prompt := QuestionPrompt(text, n, language, c);
      var call := if qg.provider == "ollama" then OllamaCall(qg, prompt, language) else GroqCall(qg, prompt, n, language, c);
      responder(call).Content? && validate(responder(call).text) == Invalid(reason)
    ensures GenerateQuestions(qg, responder, validate, text, n, language, c) == Err(Wrapped(qg.model, ParseFailure + reason))
  {
    DispatchAnswers(qg, responder, validate, QuestionPrompt(text, n, language, c), n, language, c);
  }

  /** The default model ignores case but the dispatch does not: a generator
      made for "Groq" gets the Groq model and then refuses every passage. */
  lemma DispatchIsCaseSensitive(responder: Responder, validate: Validator,
                                text: string, n: int, language: string, c: int)
    requires !AllSpace(text)
    ensures var qg := NewQuestionGenerator(None, "Groq");
      && qg.model == Settings.GroqModel
      && GenerateQuestions(qg, responder, validate, text, n, language, c) == Err(ValueError("Unknown provider: " + qg.provider))
  {
    assert Lower("Groq") == Settings.GroqProvider;
  }
}
