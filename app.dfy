/** `App`: it wires the form to the passage stage and the passage to the
    question stage, and shows one error for both. It holds no state of its
    own: each handler works on the two hook objects, and each touches only
    its own. */
module App {
  import opened Common
  import Schemas
  import Api
  import opened TextGenerationHook
  import opened QuestionGenerationHook
  import opened TextGenerationForm

  /** `textError || questionsError`. */
  function CombinedError(textError: Option<string>, questionsError: Option<string>): (e: Option<string>)
    ensures Truthy(textError) ==> e == textError
    ensures !Truthy(textError) ==> e == questionsError
  {
    if Truthy(textError) then textError else questionsError
  }

  /** After a failed passage request the passage error is shown whatever
      the question stage holds, as long as the message is not empty; an
      empty message is falsy and lets the question error through. The
      failure also empties the passage, so a later questions click sends
      nothing. */
  lemma TextErrorWins(qs: QuestionStage, outcome: Api.HttpOutcome<Schemas.GeneratedTextResponse>)
    requires !outcome.Delivered?
    ensures var ts := CompleteText(StartedText, outcome);
      && ts.generatedText == ""
      && (Api.TextCall(outcome).error != "" ==> CombinedError(ts.error, qs.error) == Some(Api.TextCall(outcome).error))
      && (Api.TextCall(outcome).error == "" ==> CombinedError(ts.error, qs.error) == qs.error)
  {
  }

  /** The body `handleGenerateQuestions` sends for a passage: the passage,
      "English", "ollama", the default counts and no model. */
  function QuestionsRequestFor(generatedText: string): (b: QuestionsBody)
    ensures b == QuestionsBody(generatedText, Some(DefaultNumQuestions), "English", Some(DefaultChoicesNum), "ollama", None)
  {
    RequestBody(generatedText, "English", "ollama", DefaultNumQuestions, DefaultChoicesNum, None)
  }

  /** The JSON body a submitted form becomes: every field as it stands and
      no model; the backend ignores `questionProvider`. */
  function TextBodyOf(form: FormData): Schemas.TextRequestBody {
    Schemas.TextRequestBody(Schemas.Given(form.topic), Schemas.Given(form.language), Schemas.Given(form.level),
                            Schemas.Given(form.style), Schemas.Given(form.provider), Schemas.Absent)
  }

  /** A submitted form passes the backend's validation exactly when its
      level is one of the three, and then the request carries the form's
      fields and no model. The initial form passes. */
  lemma FormValidates(form: FormData)
    ensures Schemas.ValidateTextRequest(TextBodyOf(form)).Some? <==> Schemas.ParseLevel(form.level).Some?
    ensures Schemas.ParseLevel(form.level).Some? ==>
      Schemas.ValidateTextRequest(TextBodyOf(form)) ==
      Some(Schemas.GeneratedTextRequest(form.topic, form.language, Schemas.ParseLevel(form.level).value,
                                        form.style, form.provider, None))
    ensures Schemas.ValidateTextRequest(TextBodyOf(InitialForm)).Some?
  {
    var r := Schemas.ValidateTextRequest(TextBodyOf(form));
    if r.Some? {
      Schemas.LevelRoundTrip(r.value.level);
    }
    assert Schemas.ParseLevel(InitialForm.level) == Some(Schemas.Basic);
  }

  /** `handleGenerateText`: the submitted form goes out unchanged (returned
      here as `sent`) and only the passage stage moves. */
  method HandleGenerateText(text: TextGeneration, questions: QuestionGeneration,
                            form: FormData, outcome: Api.HttpOutcome<Schemas.GeneratedTextResponse>)
    returns (sent: FormData)
    modifies text
    ensures sent == form
    ensures text.Stage() == CompleteText(StartedText, outcome)
    ensures questions.Stage() == old(questions.Stage())
  {
    sent := form;
    var _ := text.GenerateText(outcome);
  }

  /** `handleGenerateQuestions`: the current passage goes out with
      "English", "ollama" and the defaults, and only the question stage
      moves. Without a passage nothing is sent and nothing changes. */
  method HandleGenerateQuestions(text: TextGeneration, questions: QuestionGeneration,
                                 outcome: Api.HttpOutcome<Schemas.GenerateQuestionsResponse>)
    returns (sent: Option<QuestionsBody>)
    modifies questions
    ensures text.Stage() == old(text.Stage())
    ensures text.generatedText == "" ==> sent.None? && questions.Stage() == old(questions.Stage())
    ensures text.generatedText != "" ==>
      sent == Some(QuestionsRequestFor(text.generatedText))
      && questions.Stage() == CompleteQuestions(StartedQuestions, outcome)
  {
    var _, s := questions.GenerateQuestions(text.generatedText, "English", "ollama",
                                            DefaultNumQuestions, DefaultChoicesNum, None, outcome);
    sent := s;
  }

  /** The question request the app sends for a passage passes the
      backend's validation with five questions of four choices each, in
      English, for Ollama, with no model. */
  lemma AppQuestionRequestValidates(generatedText: string)
    ensures Schemas.ValidateQuestionsRequest(AsSchemaBody(QuestionsRequestFor(generatedText)))
      == Some(Schemas.GenerateQuestionsRequest(generatedText, 5, "English", 4, "ollama", None))
  {
    RequestBodyValidates(generatedText, "English", "ollama", DefaultNumQuestions, DefaultChoicesNum, None);
  }

  /** The passage fails, then the user asks for questions: with no passage
      nothing is sent, and the passage error is the one shown. */
  method TextFailsThenQuestions(text: TextGeneration, questions: QuestionGeneration, form: FormData,
                                textOutcome: Api.HttpOutcome<Schemas.GeneratedTextResponse>,
                                questionsOutcome: Api.HttpOutcome<Schemas.GenerateQuestionsResponse>)
    returns (sent: Option<QuestionsBody>, shown: Option<string>)
    requires !textOutcome.Delivered?
    modifies text, questions
    ensures sent.None?
    ensures questions.Stage() == old(questions.Stage())
    ensures Api.TextCall(textOutcome).error != "" ==> shown == Some(Api.TextCall(textOutcome).error)
    ensures Api.TextCall(textOutcome).error == "" ==> shown == old(questions.error)
  {
    var _ := HandleGenerateText(text, questions, form, textOutcome);
    sent := HandleGenerateQuestions(text, questions, questionsOutcome);
    shown := CombinedError(text.error, questions.error);
  }

  /** The questions for a passage fail, then a new passage fails: both
      errors are set, and the passage error is the one shown. */
  method QuestionsFailThenText(text: TextGeneration, questions: QuestionGeneration, form: FormData,
                               questionsOutcome: Api.HttpOutcome<Schemas.GenerateQuestionsResponse>,
                               textOutcome: Api.HttpOutcome<Schemas.GeneratedTextResponse>)
    returns (sent: Option<QuestionsBody>, shown: Option<string>)
    requires text.generatedText != ""
    requires !questionsOutcome.Delivered? && !textOutcome.Delivered?
    modifies text, questions
    ensures sent == Some(QuestionsRequestFor(old(text.generatedText)))
    ensures questions.error == Some(Api.QuestionsCall(questionsOutcome).error)
    ensures Api.TextCall(textOutcome).error != "" ==> shown == Some(Api.TextCall(textOutcome).error)
    ensures Api.TextCall(textOutcome).error == "" ==> shown == questions.error
  {
    sent := HandleGenerateQuestions(text, questions, questionsOutcome);
    var _ := HandleGenerateText(text, questions, form, textOutcome);
    shown := CombinedError(text.error, questions.error);
  }
}
