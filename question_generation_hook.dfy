/** `useQuestionGeneration`: the front end's question stage. Its state is
    the questions, whether a request is running, the last error and whether
    the questions are shown. Without a passage a call does nothing at all;
    otherwise it is a start followed by a completion with what the request
    brought. */
module QuestionGenerationHook {
  import opened Common
  import opened Strings
  import Schemas
  import Api

  /** The four state slots, as a value. */
  datatype QuestionStage = QuestionStage(
    questions: seq<Schemas.Question>, isLoading: bool, error: Option<string>, showQuestions: bool)

  const InitialQuestionStage: QuestionStage := QuestionStage([], false, None, false)

  /** The state right after a start: no questions, nothing shown. */
  const StartedQuestions: QuestionStage := QuestionStage([], true, None, false)

  /** A completion: delivered questions replace the list and are shown; a
      failure sets the error and leaves the list and its visibility alone;
      loading ends. */
  function CompleteQuestions(s: QuestionStage, outcome: Api.HttpOutcome<Schemas.GenerateQuestionsResponse>): (t: QuestionStage)
    ensures !t.isLoading
    ensures outcome.Delivered? ==> t.questions == outcome.body.questions && t.showQuestions && t.error == s.error
    ensures !outcome.Delivered? ==>
      t.questions == s.questions && t.showQuestions == s.showQuestions && t.error.Some?
  {
    match Api.QuestionsCall(outcome)
    case Ok(response) => QuestionStage(response.questions, false, s.error, true)
    case Err(message) => QuestionStage(s.questions, false, Some(message), s.showQuestions)
  }

  /** What `generateQuestions` returns: nothing when there is no passage
      (`undefined`), null after a failure, or the questions. */
  datatype QuestionsReturn = Skipped | Failed | Returned(questions: seq<Schemas.Question>)

  function QuestionsResult(outcome: Api.HttpOutcome<Schemas.GenerateQuestionsResponse>): (r: QuestionsReturn)
    ensures r.Returned? <==> outcome.Delivered?
    ensures r.Returned? ==> r.questions == outcome.body.questions
    ensures !r.Skipped?
  {
    match Api.QuestionsCall(outcome)
    case Ok(response) => Returned(response.questions)
    case Err(_) => Failed
  }

  /** The JSON body the hook posts; a count that `parseInt` cannot read
      would be `NaN`, sent as null, and is `None` here. */
  datatype QuestionsBody = QuestionsBody(
    generatedText: string, numQuestions: Option<int>, language: string,
    choicesNum: Option<int>, provider: string, model: Option<string>)

  const DefaultNumQuestions: int := 5
  const DefaultChoicesNum: int := 4

  /** The body for a call: both counts go through `parseInt(_, 10)`, which
      gives back the number that was passed. */
  function RequestBody(generatedText: string, language: string, provider: string,
                       numQuestions: int, choicesNum: int, model: Option<string>): (b: QuestionsBody)
    ensures b.numQuestions == Some(numQuestions) && b.choicesNum == Some(choicesNum)
    ensures b.generatedText == generatedText && b.language == language
    ensures b.provider == provider && b.model == model
  {
    ParseIntOfRendered(numQuestions);
    ParseIntOfRendered(choicesNum);
    QuestionsBody(generatedText, ParseInt10(IntToString(numQuestions)), language,
                  ParseInt10(IntToString(choicesNum)), provider, model)
  }

  /** The body as the backend's request validation sees it: a missing
      count or model is JSON null. */
  function AsSchemaBody(b: QuestionsBody): Schemas.QuestionsRequestBody {
    Schemas.QuestionsRequestBody(
      Schemas.Given(b.generatedText),
      if b.numQuestions.Some? then Schemas.Given(b.numQuestions.value) else Schemas.Null,
      Schemas.Given(b.language),
      if b.choicesNum.Some? then Schemas.Given(b.choicesNum.value) else Schemas.Null,
      Schemas.Given(b.provider),
      if b.model.Some? then Schemas.Given(b.model.value) else Schemas.Null)
  }

  /** Every body the hook builds passes the backend's request validation,
      with the counts and the model the caller passed. */
  lemma RequestBodyValidates(generatedText: string, language: string, provider: string,
                             numQuestions: int, choicesNum: int, model: Option<string>)
    ensures Schemas.ValidateQuestionsRequest(AsSchemaBody(RequestBody(generatedText, language, provider, numQuestions, choicesNum, model)))
      == Some(Schemas.GenerateQuestionsRequest(generatedText, numQuestions, language, choicesNum, provider, model))
  {
  }

  class QuestionGeneration {
    var questions: seq<Schemas.Question>
    var isLoading: bool
    var error: Option<string>
    var showQuestions: bool

    function Stage(): QuestionStage
      reads this
    {
      QuestionStage(questions, isLoading, error, showQuestions)
    }

    /** The hook's initial state: no questions, not loading, no error,
        nothing shown. */
    constructor()
      ensures Stage() == InitialQuestionStage
    {
      questions := [];
      isLoading := false;
      error := None;
      showQuestions := false;
    }

    /** The start of `generateQuestions`. */
    method Start()
      modifies this
      ensures Stage() == StartedQuestions
    {
      isLoading := true;
      questions := [];
      error := None;
      showQuestions := false;
    }

    /** The completion of `generateQuestions`, whichever start it belongs to. */
    method Complete(outcome: Api.HttpOutcome<Schemas.GenerateQuestionsResponse>) returns (r: QuestionsReturn)
      modifies this
      ensures Stage() == CompleteQuestions(old(Stage()), outcome)
      ensures r == QuestionsResult(outcome)
    {
      match Api.QuestionsCall(outcome) {
        case Ok(response) =>
          questions := response.questions;
          showQuestions := true;
          r := Returned(response.questions);
        case Err(message) =>
          error := Some(message);
          r := Failed;
      }
      isLoading := false;
    }

    /** One call of `generateQuestions` with nothing overlapping it: an empty
        passage returns at once and changes nothing; otherwise the body is
        sent (returned here as `sent`) and `outcome` is what came back. */
    method GenerateQuestions(generatedText: string, language: string, provider: string,
                             numQuestions: int, choicesNum: int, model: Option<string>,
                             outcome: Api.HttpOutcome<Schemas.GenerateQuestionsResponse>)
      returns (r: QuestionsReturn, sent: Option<QuestionsBody>)
      modifies this
      ensures generatedText == "" ==> Stage() == old(Stage()) && r == Skipped && sent == None
      ensures generatedText != "" ==>
        && Stage() == CompleteQuestions(StartedQuestions, outcome)
        && r == QuestionsResult(outcome)
        && sent == Some(RequestBody(generatedText, language, provider, numQuestions, choicesNum, model))
    {
      if generatedText == "" {
        return Skipped, None;
      }
      Start();
      sent := Some(RequestBody(generatedText, language, provider, numQuestions, choicesNum, model));
      r := Complete(outcome);
    }
  }

  /** After one call with a passage: delivered questions are shown with no
      error; after a failure no question is shown, the list is empty and
      the error is the call's message. */
  lemma OneCall(outcome: Api.HttpOutcome<Schemas.GenerateQuestionsResponse>)
    ensures var t := CompleteQuestions(StartedQuestions, outcome);
      && (outcome.Delivered? ==> t == QuestionStage(outcome.body.questions, false, None, true))
      && (!outcome.Delivered? ==> t == QuestionStage([], false, Some(Api.QuestionsCall(outcome).error), false))
  {
  }
}
