/** `useTextGeneration`: the front end's passage stage. Its state is the
    passage shown, whether a request is running, and the last error. A call
    is a start, which clears the passage and the error, followed by a
    completion with what the request brought; nothing ties a completion to
    the start it belongs to. */
module TextGenerationHook {
  import opened Common
  import Schemas
  import Api

  /** The three state slots, as a value. */
  datatype TextStage = TextStage(generatedText: string, isLoading: bool, error: Option<string>)

  const InitialTextStage: TextStage := TextStage("", false, None)

  /** The state right after a start: whatever was there before is gone. */
  const StartedText: TextStage := TextStage("", true, None)

  /** A completion: a delivered passage replaces the text, a failure sets
      the error; neither touches the other slot, and loading ends. */
  function CompleteText(s: TextStage, outcome: Api.HttpOutcome<Schemas.GeneratedTextResponse>): (t: TextStage)
    ensures !t.isLoading
    ensures outcome.Delivered? ==> t.generatedText == outcome.body.generatedText && t.error == s.error
    ensures !outcome.Delivered? ==> t.generatedText == s.generatedText && t.error.Some?
  {
    match Api.TextCall(outcome)
    case Ok(response) => TextStage(response.generatedText, false, s.error)
    case Err(message) => TextStage(s.generatedText, false, Some(message))
  }

  /** What `generateText` returns: the passage, or null after a failure. */
  function TextReturn(outcome: Api.HttpOutcome<Schemas.GeneratedTextResponse>): (r: Option<string>)
    ensures r.Some? <==> outcome.Delivered?
    ensures r.Some? ==> r.value == outcome.body.generatedText
  {
    match Api.TextCall(outcome)
    case Ok(response) => Some(response.generatedText)
    case Err(_) => None
  }

  class TextGeneration {
    var generatedText: string
    var isLoading: bool
    var error: Option<string>

    function Stage(): TextStage
      reads this
    {
      TextStage(generatedText, isLoading, error)
    }

    /** The hook's initial state: no passage, not loading, no error. */
    constructor()
      ensures Stage() == InitialTextStage
    {
      generatedText := "";
      isLoading := false;
      error := None;
    }

    /** The start of `generateText`: loading, no error, no passage. */
    method Start()
      modifies this
      ensures Stage() == StartedText
    {
      isLoading := true;
      error := None;
      generatedText := "";
    }

    /** The completion of `generateText`, whichever start it belongs to. */
    method Complete(outcome: Api.HttpOutcome<Schemas.GeneratedTextResponse>) returns (r: Option<string>)
      modifies this
      ensures Stage() == CompleteText(old(Stage()), outcome)
      ensures r == TextReturn(outcome)
    {
      match Api.TextCall(outcome) {
        case Ok(response) =>
          generatedText := response.generatedText;
          r := Some(response.generatedText);
        case Err(message) =>
          error := Some(message);
          r := None;
      }
      isLoading := false;
    }

    /** One call of `generateText` with nothing overlapping it. */
    method GenerateText(outcome: Api.HttpOutcome<Schemas.GeneratedTextResponse>) returns (r: Option<string>)
      modifies this
      ensures Stage() == CompleteText(StartedText, outcome)
      ensures r == TextReturn(outcome)
    {
      Start();
      r := Complete(outcome);
    }
  }

  /** After one call: a delivered passage is shown with no error; after a
      failure the passage is empty, the previous one gone, and the error is
      the call's message. Loading has ended either way. */
  lemma OneCall(outcome: Api.HttpOutcome<Schemas.GeneratedTextResponse>)
    ensures var t := CompleteText(StartedText, outcome);
      && !t.isLoading
      && (outcome.Delivered? ==> t == TextStage(outcome.body.generatedText, false, None))
      && (!outcome.Delivered? ==> t == TextStage("", false, Some(Api.TextCall(outcome).error)))
  {
  }

  /** Two overlapping calls: both start, one fails and one delivers. In
      either order of completion the first completion ends loading while
      the other call is still running, and afterwards the delivered passage
      and the failure's error are shown together: a stale failure that
      lands after a newer success does not clear the passage, and a success
      that lands after a failure does not clear the error. */
  lemma OverlappingCalls(failed: Api.HttpOutcome<Schemas.GeneratedTextResponse>,
                         delivered: Api.HttpOutcome<Schemas.GeneratedTextResponse>)
    requires !failed.Delivered? && delivered.Delivered?
    ensures var first := CompleteText(StartedText, delivered);
      && !first.isLoading
      && CompleteText(first, failed) ==
         TextStage(delivered.body.generatedText, false, Some(Api.TextCall(failed).error))
    ensures var first := CompleteText(StartedText, failed);
      && !first.isLoading
      && CompleteText(first, delivered) ==
         TextStage(delivered.body.generatedText, false, Some(Api.TextCall(failed).error))
  {
  }
}
