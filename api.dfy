/** The front end's calls to the backend: what a call hands back, and the
    error message it throws when the backend refuses. The same rules are
    written out in `apiClient` and again in the two generation hooks.

    What the fetch brought is an input: the parsed body of an OK response,
    the status, status text and error body of a refused one, or the message
    of an exception thrown on the way. */
module Api {
  import opened Common
  import opened Strings

  /** The body of a refused response: its `detail` field when it parsed (a
      string, or missing), or a body that did not parse as JSON. */
  datatype ErrorBody = ErrorBody(detail: Option<string>) | Unreadable

  /** What a `fetch` to the backend brought. */
  datatype HttpOutcome<T> =
    | Delivered(body: T)
    | Refused(status: int, statusText: string, errorBody: ErrorBody)
    | Thrown(message: string)

  /** `errorData.detail || response.statusText`: a body that did not parse
      counts as one without a detail. */
  function ErrorDetail(errorBody: ErrorBody, statusText: string): (d: string)
    ensures errorBody.ErrorBody? && Truthy(errorBody.detail) ==> d == errorBody.detail.value
    ensures !(errorBody.ErrorBody? && Truthy(errorBody.detail)) ==> d == statusText
  {
    var detail := match errorBody case ErrorBody(detail) => detail case Unreadable => None;
    if Truthy(detail) then detail.value else statusText
  }

  /** A detail that points at the Groq key. */
  predicate MentionsApiKey(detail: string) {
    Contains(detail, "API key") || Contains(detail, "GROQ_API_KEY")
  }

  const ApiKeyHead: string := "API key error: "
  const ApiKeyHint: string := ". Make sure to set up your .env file with the GROQ_API_KEY."
  const TextFailedHead: string := "Failed to generate text: "

  /** The message a refused text request throws: the API-key hint when the
      detail mentions the key, the plain failure otherwise. */
  function TextErrorMessage(detail: string): string {
    if MentionsApiKey(detail) then ApiKeyHead + detail + ApiKeyHint else TextFailedHead + detail
  }

  /** The message starts with the API-key head exactly when the detail
      mentions the key, and it quotes the detail either way. The API-key
      message is the head, the detail and the setup hint; any other message
      is the plain failure head followed by the detail and nothing else. */
  lemma TextErrorMessageSpec(detail: string)
    ensures var m := TextErrorMessage(detail);
      && (|m| >= |ApiKeyHead| && m[..|ApiKeyHead|] == ApiKeyHead <==> MentionsApiKey(detail))
      && Contains(m, detail)
    ensures var m := TextErrorMessage(detail);
      MentionsApiKey(detail) ==>
        && |m| == |ApiKeyHead| + |detail| + |ApiKeyHint|
        && m[|ApiKeyHead|..|ApiKeyHead| + |detail|] == detail
        && m[|ApiKeyHead| + |detail|..] == ApiKeyHint
    ensures var m := TextErrorMessage(detail);
      !MentionsApiKey(detail) ==>
        && |m| >= |TextFailedHead| && m[..|TextFailedHead|] == TextFailedHead
        && m[|TextFailedHead|..] == detail
  {
    var m := TextErrorMessage(detail);
    if MentionsApiKey(detail) {
      assert m[..|ApiKeyHead|] == ApiKeyHead;
      ContainsInfix(ApiKeyHead, detail, ApiKeyHint);
    } else {
      assert m[0] == 'F';
      ContainsSuffix(TextFailedHead, detail);
    }
  }

  const QuestionsFailedHead: string := "Failed to generate questions: "

  /** The message a refused question request throws: the status and the
      status text. */
  function QuestionsErrorMessage(status: int, statusText: string): string {
    QuestionsFailedHead + IntToString(status) + " " + statusText
  }

  /** The status can be read back from the message with `parseInt`, and the
      status text ends it. */
  lemma QuestionsErrorMessageSpec(status: int, statusText: string)
    ensures var m := QuestionsErrorMessage(status, statusText);
      && |m| >= |QuestionsFailedHead| && m[..|QuestionsFailedHead|] == QuestionsFailedHead
      && ParseInt10(m[|QuestionsFailedHead|..]) == Some(status)
      && Contains(m, statusText)
  {
    var m := QuestionsErrorMessage(status, statusText);
    assert m[|QuestionsFailedHead|..] == IntToString(status) + (" " + statusText);
    ParseIntOfRenderedThen(status, " " + statusText);
    ContainsSuffix(QuestionsFailedHead + IntToString(status) + " ", statusText);
  }

  /** `apiClient.generateText` (and the text hook): the parsed body of an OK
      response unchanged, or the message it throws. */
  function TextCall<T>(outcome: HttpOutcome<T>): (r: Result<T, string>)
    ensures r.Ok? <==> outcome.Delivered?
    ensures r.Ok? ==> r.value == outcome.body
    ensures outcome.Refused? ==> r == Err(TextErrorMessage(ErrorDetail(outcome.errorBody, outcome.statusText)))
    ensures outcome.Thrown? ==> r == Err(outcome.message)
  {
    match outcome
    case Delivered(body) => Ok(body)
    case Refused(_, statusText, errorBody) => Err(TextErrorMessage(ErrorDetail(errorBody, statusText)))
    case Thrown(message) => Err(message)
  }

  /** `apiClient.generateQuestions` (and the question hook): the parsed body
      of an OK response unchanged, or the message it throws. */
  function QuestionsCall<T>(outcome: HttpOutcome<T>): (r: Result<T, string>)
    ensures r.Ok? <==> outcome.Delivered?
    ensures r.Ok? ==> r.value == outcome.body
    ensures outcome.Refused? ==> r == Err(QuestionsErrorMessage(outcome.status, outcome.statusText))
    ensures outcome.Thrown? ==> r == Err(outcome.message)
  {
    match outcome
    case Delivered(body) => Ok(body)
    case Refused(status, statusText, _) => Err(QuestionsErrorMessage(status, statusText))
    case Thrown(message) => Err(message)
  }
}
