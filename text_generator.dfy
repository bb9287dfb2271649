/** The passage generator of the backend. English passages are calibrated:
    up to `MaxIterations` attempts, each prompted with the best score so far
    and the previous text, stopping at the first attempt whose readability
    score falls in the level's range and otherwise keeping the attempt
    closest to the middle of the range. Other languages get one attempt.

    The model's replies and the readability score are inputs: a `Responder`
    gives the reply to the request of each attempt, and a `Scorer` gives the
    Gunning Fog score of a text. */
module TextGenerator {
  import opened Common
  import opened Strings
  import Settings
  import Prompts
  import Schemas
  import opened LlmProvider

  const MaxIterations: nat := 10

  /** A `TextGenerator`: the model it uses and the provider name. */
  datatype TextGenerator = TextGenerator(model: string, provider: string) {
    /** The `LLMProvider` it talks through. */
    function Llm(): Provider {
      Provider(provider, model)
    }
  }

  /** `TextGenerator(model, provider)`: a missing model is the Groq default
      when the provider lower-cased is "groq" and the Ollama default otherwise. */
  function NewTextGenerator(model: Option<string>, provider: string): (g: TextGenerator)
    ensures g.provider == provider
    ensures model.Some? ==> g.model == model.value
    ensures model.None? ==> (g.model == Settings.GroqModel <==> Lower(provider) == Settings.GroqProvider)
    ensures model.None? ==> (g.model == Settings.OllamaModel <==> Lower(provider) != Settings.GroqProvider)
  {
    TextGenerator(Settings.ResolveModel(model, provider), provider)
  }

  // ---------------------------------------------------------------------------
  // Calls to the model

  /** What came back from one call: the generated text, or the message of
      the exception the call raised. */
  datatype Reply = Content(text: string) | Failure(message: string)

  /** The reply the model gives to the request of attempt `i` (counted from 0). */
  type Responder = (nat, Request) -> Reply

  /** The Gunning Fog score of a text. */
  type Scorer = string -> real

  /** How the English prompt is built from the topic, level, style, best
      score so far and previous text; the generator uses
      `Prompts.BuildEnglishPrompt`. */
  type PromptBuilder = (string, string, string, Option<real>, Option<string>) -> string

  /** One call through the provider with default options. A provider name
      the provider does not know fails before anything is sent. */
  function Call(g: TextGenerator, responder: Responder, attempt: nat, messages: seq<Message>): (r: Reply)
    ensures g.provider != "ollama" && g.provider != "groq" ==> r == Failure("Unknown provider: " + g.provider)
  {
    match g.Llm().Generate(messages, Options(None, None))
    case Ok(request) => responder(attempt, request)
    case Err(e) => Failure(e.message)
  }

  /** The system message of every English attempt. */
  const EnglishSystem: string :=
    "You are a professional language teacher tasked to create a reading passage. Do not give any output besides the text do not include things like 'ok here is your text' or 'here is the text'. Always make sure that generated text is in English event the topic is in another language."

  function EnglishMessages(prompt: string): seq<Message> {
    [Message("system", EnglishSystem), Message("user", prompt)]
  }

  /** One English call: the attempt's index and its prompt in, the reply out. */
  type Asker = (nat, string) -> Reply

  /** The English call as the generator makes it: the system message and the
      prompt, sent through the provider. */
  function EnglishCall(g: TextGenerator, responder: Responder): Asker {
    (attempt: nat, prompt: string) => Call(g, responder, attempt, EnglishMessages(prompt))
  }

  /** The system message of the single attempt in another language. */
  function OtherLanguageSystem(language: string, style: string, level: string): string {
    "You are a professional language teacher tasked to create a reading passage. Do not give any output besides the text do not include things like 'ok here is your text' or 'here is the text'. Always make sure that generated text is in "
    + language + " event the topic is in another language. Make sure that style is " + style
    + " and level is " + level + "."
  }

  function OtherLanguageMessages(prompt: string, language: string, style: string, level: string): seq<Message> {
    [Message("system", OtherLanguageSystem(language, style, level)), Message("user", prompt)]
  }

  // ---------------------------------------------------------------------------
  // Scores and ranges

  /** The range an English attempt must reach; an unknown level gets (0, 25). */
  function GeneratorRange(level: string): (r: (int, int))
    ensures level in Prompts.LevelRanges ==> r == Prompts.LevelRanges[level]
    ensures level !in Prompts.LevelRanges ==> r == (0, 25)
  {
    Prompts.RangeOr(level, (0, 25))
  }

  /** `low <= score <= high`. */
  predicate InRange(score: real, range: (int, int)) {
    range.0 as real <= score <= range.1 as real
  }

  function Centre(range: (int, int)): real {
    (range.1 + range.0) as real / 2.0
  }

  /** `abs(score - centre)`. */
  function Distance(score: real, range: (int, int)): (d: real)
    ensures d >= 0.0
    ensures d == score - Centre(range) || d == Centre(range) - score
  {
    if score >= Centre(range) then score - Centre(range) else Centre(range) - score
  }

  /** The line recorded for an attempt outside the range. */
  function FailedLine(iteration: nat, score: real, text: string): string {
    "Iteration " + NatToString(iteration) + " (score " + Fixed2(score) + "): " + text
  }

  /** The exception the English path raises when a call fails before any usable text. */
  function GenerationFailed(model: string, message: string): Raised {
    Exception("Failed to generate text using model " + model + ": " + message)
  }

  /** The exception the English path would raise after a loop that kept no text. */
  function NothingKept(iterations: nat, model: string): Raised {
    Exception("Could not generate " + "suitable text after " + NatToString(iterations) +
              " iterations using " + "model " + model + ".")
  }

  // ---------------------------------------------------------------------------
  // Calibration, step by step

  /** A reply that came back as text, with its score. */
  datatype Attempt = Attempt(text: string, score: real)

  /** The variables of the calibration loop, and the texts scored so far. */
  datatype Calibration = Calibration(
    iterations: nat,
    bestText: Option<string>,
    bestScore: Option<real>,
    bestDifference: Option<real>,
    failedTexts: seq<string>,
    previousText: Option<string>,
    promptsUsed: seq<string>,
    attempts: seq<Attempt>)

  const Start: Calibration := Calibration(0, None, None, None, [], None, [], [])

  /** After one attempt the loop goes on, stops with what it has, or raises. */
  datatype Step = Continue(state: Calibration) | Done(state: Calibration) | Raise(error: Raised)

  /** One pass of the loop body: the prompt from the best score and the
      previous text, the call, then what the reply does to the variables. */
  function Iterate(g: TextGenerator, ask: Asker, fog: Scorer, build: PromptBuilder,
                   topic: string, level: string, style: string, s: Calibration): Step
  {
    var prompt := build(topic, level, style, s.bestScore, s.previousText);
    Advance(g.model, fog, level, s, prompt, ask(s.iterations, prompt))
  }

  /** The loop body once the prompt is built and the reply is in: a failed
      call stops the loop when a text is kept and raises otherwise; a text in
      the range is kept and stops the loop; a text outside it is recorded as
      failed and replaces the kept one when strictly closer to the centre. */
  function Advance(model: string, fog: Scorer, level: string, s: Calibration, prompt: string, reply: Reply): Step {
    var iteration := s.iterations + 1;
    var prompts := s.promptsUsed + [prompt];
    match reply
    case Failure(message) =>
      if Truthy(s.bestText) then Done(s.(iterations := iteration, promptsUsed := prompts))
      else Raise(GenerationFailed(model, message))
    case Content(text) =>
      var score := fog(text);
      var range := GeneratorRange(level);
      var difference := Distance(score, range);
      var t := s.(iterations := iteration, promptsUsed := prompts, previousText := Some(text),
                  attempts := s.attempts + [Attempt(text, score)]);
      if InRange(score, range) then
        Done(t.(bestText := Some(text), bestScore := Some(score)))
      else
        var u := t.(failedTexts := s.failedTexts + [FailedLine(iteration, score, text)]);
        if s.bestDifference.None? || difference < s.bestDifference.value then
          Continue(u.(bestText := Some(text), bestScore := Some(score), bestDifference := Some(difference)))
        else
          Continue(u)
  }

  /** The loop from state `s` with `remaining` passes left. */
  function Calibrate(g: TextGenerator, ask: Asker, fog: Scorer, build: PromptBuilder,
                     topic: string, level: string, style: string,
                     s: Calibration, remaining: nat): Result<Calibration, Raised>
    decreases remaining
  {
    if remaining == 0 then Ok(s)
    else
      match Iterate(g, ask, fog, build, topic, level, style, s)
      case Continue(t) => Calibrate(g, ask, fog, build, topic, level, style, t, remaining - 1)
      case Done(t) => Ok(t)
      case Raise(e) => Err(e)
  }

  /** The whole loop, from the initial variables. */
  function Run(g: TextGenerator, ask: Asker, fog: Scorer, build: PromptBuilder,
               topic: string, level: string, style: string): Result<Calibration, Raised>
  {
    Calibrate(g, ask, fog, build, topic, level, style, Start, MaxIterations)
  }

  /** `_generate_text_english`: the loop, then the response built from the
      best text and score, the level, language and style, the number of
      attempts, the failed texts and the prompts. */
  function EnglishResult(g: TextGenerator, ask: Asker, fog: Scorer, build: PromptBuilder,
                         topic: string, language: string, level: string, style: string)
    : (r: Result<Schemas.GeneratedTextResponse, Raised>)
    ensures r.Err? ==> exists message :: r.error == GenerationFailed(g.model, message)
    ensures r.Ok? ==>
      && r.value.level == level && r.value.language == language && r.value.style == style
      && r.value.score.Some? && r.value.iterations.Some? && r.value.failedTexts.Some? && r.value.promptsUsed.Some?
      && 1 <= r.value.iterations.value <= MaxIterations
      && |r.value.promptsUsed.value| == r.value.iterations.value
      && |r.value.failedTexts.value| <= r.value.iterations.value
  {
    RunOutcome(g, ask, fog, build, topic, level, style);
    match Run(g, ask, fog, build, topic, level, style)
    case Err(e) => Err(e)
    case Ok(s) =>
      EndedKeepsText(fog, level, s);
      if s.bestText.None? then Err(NothingKept(s.iterations, g.model))
      else Ok(Schemas.GeneratedTextResponse(s.bestText.value, s.bestScore, level, language, style,
                                            Some(s.iterations), Some(s.failedTexts), Some(s.promptsUsed)))
  }

  /** The calibration loop as the generator runs it. */
  method GenerateTextEnglish(g: TextGenerator, responder: Responder, fog: Scorer, build: PromptBuilder,
                             topic: string, language: string, level: string, style: string)
    returns (r: Result<Schemas.GeneratedTextResponse, Raised>)
    ensures r == EnglishResult(g, EnglishCall(g, responder), fog, build, topic, language, level, style)
  {
    var iterations: nat := 0;
    var bestText: Option<string> := None;
    var bestScore: Option<real> := None;
    var bestDifference: Option<real> := None;
    var failedTexts: seq<string> := [];
    var previousText: Option<string> := None;
    var promptsUsed: seq<string> := [];
    ghost var attempts: seq<Attempt> := [];
    ghost var ask := EnglishCall(g, responder);
    ghost var run := Run(g, ask, fog, build, topic, level, style);

    while iterations < MaxIterations
      invariant iterations <= MaxIterations
      invariant run == Calibrate(g, ask, fog, build, topic, level, style,
                                 Calibration(iterations, bestText, bestScore, bestDifference, failedTexts,
                                             previousText, promptsUsed, attempts),
                                 MaxIterations - iterations)
    {
      ghost var s := Calibration(iterations, bestText, bestScore, bestDifference, failedTexts,
                                 previousText, promptsUsed, attempts);
      iterations := iterations + 1;
      var prompt := build(topic, level, style, bestScore, previousText);
      promptsUsed := promptsUsed + [prompt];
      var reply := Call(g, responder, iterations - 1, EnglishMessages(prompt));
      match reply {
        case Failure(message) =>
          if Truthy(bestText) {
            assert run == Ok(Calibration(iterations, bestText, bestScore, bestDifference, failedTexts,
                                         previousText, promptsUsed, attempts));
            break;
          }
          r := Err(GenerationFailed(g.model, message));
          return;
        case Content(text) =>
          previousText := Some(text);
          var score := fog(text);
          var range := GeneratorRange(level);
          var difference := Distance(score, range);
          attempts := attempts + [Attempt(text, score)];
          if InRange(score, range) {
            bestText := Some(text);
            bestScore := Some(score);
            assert run == Ok(Calibration(iterations, bestText, bestScore, bestDifference, failedTexts,
                                         previousText, promptsUsed, attempts));
            break;
          }
          failedTexts := failedTexts + [FailedLine(iterations, score, text)];
          if bestDifference.None? || difference < bestDifference.value {
            bestText := Some(text);
            bestScore := Some(score);
            bestDifference := Some(difference);
          }
          assert Iterate(g, ask, fog, build, topic, level, style, s) ==
                 Continue(Calibration(iterations, bestText, bestScore, bestDifference, failedTexts,
                                      previousText, promptsUsed, attempts));
      }
    }
    assert run == Ok(Calibration(iterations, bestText, bestScore, bestDifference, failedTexts,
                                 previousText, promptsUsed, attempts));
    if bestText.None? {
      r := Err(NothingKept(iterations, g.model));
    } else {
      r := Ok(Schemas.GeneratedTextResponse(bestText.value, bestScore, level, language, style,
                                            Some(iterations), Some(failedTexts), Some(promptsUsed)));
    }
  }

  // ---------------------------------------------------------------------------
  // Other languages and the entry point

  /** The exception the other-language path raises, wrapping what went wrong. */
  function NonEnglishFailed(model: string, message: string): Raised {
    Exception("Error generating non-English text with model " + model + ": " + message)
  }

  const TooShort: string := "Generated text is too short or empty."

  /** The call of the other-language path: its system message and the
      prompt, sent through the provider. */
  function OtherLanguageCall(g: TextGenerator, responder: Responder, language: string, style: string, level: string): Asker {
    (attempt: nat, prompt: string) => Call(g, responder, attempt, OtherLanguageMessages(prompt, language, style, level))
  }

  /** `_generate_text_other_languages` once the prompt is built: one call; a
      failed call or a text shorter than 20 characters raises the wrapped
      error, and a text is returned with no score, one iteration, no failed
      text and the one prompt. */
  function OtherLanguageResult(g: TextGenerator, ask: Asker, prompt: string,
                               language: string, level: string, style: string)
    : (r: Result<Schemas.GeneratedTextResponse, Raised>)
    ensures r.Ok? <==> ask(0, prompt).Content? && |ask(0, prompt).text| >= 20
    ensures r.Ok? ==>
      && r.value.generatedText == ask(0, prompt).text
      && r.value.score.None? && r.value.iterations == Some(1) && r.value.failedTexts == Some([])
      && r.value.promptsUsed == Some([prompt])
      && r.value.level == level && r.value.language == language && r.value.style == style
    ensures ask(0, prompt).Failure? ==> r == Err(NonEnglishFailed(g.model, ask(0, prompt).message))
    ensures ask(0, prompt).Content? && |ask(0, prompt).text| < 20 ==> r == Err(NonEnglishFailed(g.model, TooShort))
  {
    match ask(0, prompt)
    case Failure(message) => Err(NonEnglishFailed(g.model, message))
    case Content(text) =>
      if text == "" || |text| < 20 then Err(NonEnglishFailed(g.model, TooShort))
      else Ok(Schemas.GeneratedTextResponse(text, None, level, language, style, Some(1), Some([]), Some([prompt])))
  }

  /** `generate_text`: a topic made of whitespace only is refused before
      anything is sent; "English" (exactly) takes the calibrated path with
      the English prompt builder, every other language the single call. */
  method GenerateText(g: TextGenerator, responder: Responder, fog: Scorer,
                      topic: string, language: string, level: string, style: string)
    returns (r: Result<Schemas.GeneratedTextResponse, Raised>)
    ensures AllSpace(topic) ==> r == Err(ValueError("Topic cannot be empty"))
    ensures !AllSpace(topic) && language == "English" ==>
      r == EnglishResult(g, EnglishCall(g, responder), fog, Prompts.BuildEnglishPrompt, topic, language, level, style)
    ensures !AllSpace(topic) && language != "English" ==>
      r == OtherLanguageResult(g, OtherLanguageCall(g, responder, language, style, level),
                               Prompts.BuildOtherLanguagePrompt(topic, level, language, style), language, level, style)
  {
    StripEmptyIffAllSpace(topic);
    if Strip(topic) == [] {
      return Err(ValueError("Topic cannot be empty"));
    }
    if language == "English" {
      r := GenerateTextEnglish(g, responder, fog, Prompts.BuildEnglishPrompt, topic, language, level, style);
    } else {
      var prompt := Prompts.BuildOtherLanguagePrompt(topic, level, language, style);
      r := OtherLanguageResult(g, OtherLanguageCall(g, responder, language, style, level), prompt, language, level, style);
    }
  }

  // ---------------------------------------------------------------------------
  // What the loop keeps

  /** Every recorded score is the score of its text. */
  predicate Scored(fog: Scorer, attempts: seq<Attempt>) {
    forall k :: 0 <= k < |attempts| ==> attempts[k].score == fog(attempts[k].text)
  }

  /** No recorded score lies in the range. */
  predicate AllMissed(attempts: seq<Attempt>, range: (int, int)) {
    forall k :: 0 <= k < |attempts| ==> !InRange(attempts[k].score, range)
  }

  /** The failed-text lines of the given attempts, numbered from 1. */
  function FailedLines(attempts: seq<Attempt>): seq<string>
    decreases |attempts|
  {
    if |attempts| == 0 then []
    else
      var n := |attempts|;
      FailedLines(attempts[..n - 1]) + [FailedLine(n, attempts[n - 1].score, attempts[n - 1].text)]
  }

  /** One line per attempt, the `k`-th numbered `k + 1`. */
  lemma {:induction false} FailedLinesSpec(attempts: seq<Attempt>)
    ensures |FailedLines(attempts)| == |attempts|
    ensures forall k :: 0 <= k < |attempts| ==>
      FailedLines(attempts)[k] == FailedLine(k + 1, attempts[k].score, attempts[k].text)
    decreases |attempts|
  {
    if |attempts| > 0 {
      var n := |attempts|;
      var init := attempts[..n - 1];
      FailedLinesSpec(init);
      assert forall k :: 0 <= k < n - 1 ==> init[k] == attempts[k];
    }
  }

  /** The text of the last attempt, if any. */
  function LastText(attempts: seq<Attempt>): Option<string> {
    if |attempts| == 0 then None else Some(attempts[|attempts| - 1].text)
  }

  /** The first attempt whose score is closest to the centre: a later one
      replaces the one kept so far only when strictly closer. */
  function ClosestIndex(attempts: seq<Attempt>, range: (int, int)): (c: nat)
    requires |attempts| > 0
    ensures c < |attempts|
    decreases |attempts|
  {
    var last := |attempts| - 1;
    if last == 0 then 0
    else
      var c := ClosestIndex(attempts[..last], range);
      if Distance(attempts[last].score, range) < Distance(attempts[c].score, range) then last else c
  }

  /** Attempt `c` is at least as close as every attempt and strictly closer
      than every earlier one. */
  predicate IsClosest(attempts: seq<Attempt>, range: (int, int), c: nat)
    requires c < |attempts|
  {
    && (forall k :: 0 <= k < |attempts| ==> Distance(attempts[c].score, range) <= Distance(attempts[k].score, range))
    && (forall k :: 0 <= k < c ==> Distance(attempts[c].score, range) < Distance(attempts[k].score, range))
  }

  lemma {:induction false} ClosestIndexIsClosest(attempts: seq<Attempt>, range: (int, int))
    requires |attempts| > 0
    ensures IsClosest(attempts, range, ClosestIndex(attempts, range))
    decreases |attempts|
  {
    var last := |attempts| - 1;
    if last > 0 {
      var init := attempts[..last];
      ClosestIndexIsClosest(init, range);
      assert forall k :: 0 <= k < last ==> init[k] == attempts[k];
    }
  }

  /** At most one attempt is the first closest one. */
  lemma ClosestIsUnique(attempts: seq<Attempt>, range: (int, int), c: nat, d: nat)
    requires c < |attempts| && d < |attempts|
    requires IsClosest(attempts, range, c) && IsClosest(attempts, range, d)
    ensures c == d
  {
    var dc, dd := Distance(attempts[c].score, range), Distance(attempts[d].score, range);
    assert dc <= dd && dd <= dc;
    assert !(c < d) && !(d < c);
  }

  /** The kept text, score and difference are those of the closest attempt,
      and nothing is kept before the first attempt. */
  predicate KeepsClosest(s: Calibration, range: (int, int)) {
    if |s.attempts| == 0 then s.bestText.None? && s.bestScore.None? && s.bestDifference.None?
    else
      var c := ClosestIndex(s.attempts, range);
      && s.bestText == Some(s.attempts[c].text)
      && s.bestScore == Some(s.attempts[c].score)
      && s.bestDifference == Some(Distance(s.attempts[c].score, range))
  }

  /** The variables at the top of the loop: one prompt and one text per
      pass so far, every text outside the range and recorded as failed, the
      last one remembered, and the closest one kept. */
  predicate Consistent(fog: Scorer, level: string, s: Calibration) {
    var range := GeneratorRange(level);
    && s.iterations == |s.attempts| == |s.promptsUsed|
    && Scored(fog, s.attempts)
    && AllMissed(s.attempts, range)
    && s.failedTexts == FailedLines(s.attempts)
    && s.previousText == LastText(s.attempts)
    && KeepsClosest(s, range)
  }

  /** The loop stopped at its last attempt, the first one in the range, and
      kept it; the attempts before it are the failed ones. */
  predicate HitEnd(range: (int, int), s: Calibration) {
    var n := |s.attempts|;
    && n == s.iterations && n >= 1
    && AllMissed(s.attempts[..n - 1], range)
    && InRange(s.attempts[n - 1].score, range)
    && s.failedTexts == FailedLines(s.attempts[..n - 1])
    && s.bestText == Some(s.attempts[n - 1].text)
    && s.bestScore == Some(s.attempts[n - 1].score)
  }

  /** The loop stopped at a failed call, with a non-empty text kept: the
      closest of the attempts before it. */
  predicate StoppedEnd(range: (int, int), s: Calibration) {
    && |s.attempts| + 1 == s.iterations
    && AllMissed(s.attempts, range)
    && s.failedTexts == FailedLines(s.attempts)
    && KeepsClosest(s, range)
    && Truthy(s.bestText)
  }

  /** Every pass produced a text outside the range; the closest one is kept. */
  predicate ExhaustedEnd(range: (int, int), s: Calibration) {
    && |s.attempts| == s.iterations == MaxIterations
    && AllMissed(s.attempts, range)
    && s.failedTexts == FailedLines(s.attempts)
    && KeepsClosest(s, range)
  }

  /** How a loop that did not raise ended. */
  predicate Ended(fog: Scorer, level: string, s: Calibration) {
    var range := GeneratorRange(level);
    && 1 <= s.iterations <= MaxIterations
    && |s.promptsUsed| == s.iterations
    && Scored(fog, s.attempts)
    && (HitEnd(range, s) || StoppedEnd(range, s) || ExhaustedEnd(range, s))
  }

  /** One pass from a consistent state goes on from a consistent state, ends
      in one of the ways `Ended` allows, or raises the wrapped call error
      when no non-empty text is kept. */
  lemma AdvanceStep(model: string, fog: Scorer, level: string, s: Calibration, prompt: string, reply: Reply)
    requires Consistent(fog, level, s) && s.iterations < MaxIterations
    ensures match Advance(model, fog, level, s, prompt, reply)
      case Continue(t) => Consistent(fog, level, t) && t.iterations == s.iterations + 1
      case Done(t) => Ended(fog, level, t) && t.iterations == s.iterations + 1
      case Raise(e) => !Truthy(s.bestText) && reply.Failure? && e == GenerationFailed(model, reply.message)
  {
    var range := GeneratorRange(level);
    if reply.Content? {
      var a := s.attempts + [Attempt(reply.text, fog(reply.text))];
      var n := |a|;
      assert a[..n - 1] == s.attempts;
      assert LastText(a) == Some(reply.text);
      if !InRange(fog(reply.text), range) {
        assert FailedLines(a) == s.failedTexts + [FailedLine(n, fog(reply.text), reply.text)];
        if n > 1 {
          var c := ClosestIndex(s.attempts, range);
          assert ClosestIndex(a, range) == if Distance(fog(reply.text), range) < Distance(a[c].score, range) then n - 1 else c;
        }
      }
    }
  }

  /** The loop from a consistent state raises only the wrapped call error,
      and otherwise ends in one of the ways `Ended` allows. */
  lemma {:induction false} CalibrateOutcome(g: TextGenerator, ask: Asker, fog: Scorer, build: PromptBuilder,
                                            topic: string, level: string, style: string, s: Calibration, remaining: nat)
    requires Consistent(fog, level, s) && s.iterations + remaining == MaxIterations
    ensures match Calibrate(g, ask, fog, build, topic, level, style, s, remaining)
      case Ok(t) => Ended(fog, level, t)
      case Err(e) => exists message :: e == GenerationFailed(g.model, message)
    decreases remaining
  {
    if remaining > 0 {
      var prompt := build(topic, level, style, s.bestScore, s.previousText);
      var reply := ask(s.iterations, prompt);
      AdvanceStep(g.model, fog, level, s, prompt, reply);
      match Advance(g.model, fog, level, s, prompt, reply)
      case Continue(t) =>
        CalibrateOutcome(g, ask, fog, build, topic, level, style, t, remaining - 1);
      case Done(t) =>
      case Raise(e) =>
    }
  }

  /** The loop as run raises only the wrapped call error, and otherwise ends
      in one of the ways `Ended` allows. */
  lemma RunOutcome(g: TextGenerator, ask: Asker, fog: Scorer, build: PromptBuilder,
                   topic: string, level: string, style: string)
    ensures match Run(g, ask, fog, build, topic, level, style)
      case Ok(t) => Ended(fog, level, t)
      case Err(e) => exists message :: e == GenerationFailed(g.model, message)
  {
    CalibrateOutcome(g, ask, fog, build, topic, level, style, Start, MaxIterations);
  }

  /** A loop that ended keeps a text and its score, and records at most one
      failed text per pass. */
  lemma EndedKeepsText(fog: Scorer, level: string, s: Calibration)
    requires Ended(fog, level, s)
    ensures s.bestText.Some? && s.bestScore.Some?
    ensures |s.failedTexts| <= s.iterations
  {
    var range := GeneratorRange(level);
    var n := |s.attempts|;
    if HitEnd(range, s) {
      FailedLinesSpec(s.attempts[..n - 1]);
    } else {
      FailedLinesSpec(s.attempts);
    }
  }

  /** The score returned lies in the range exactly when the loop stopped at
      a hit; otherwise it is the score of the closest of the failed attempts. */
  lemma InRangeIffHit(fog: Scorer, level: string, s: Calibration)
    requires Ended(fog, level, s)
    ensures s.bestScore.Some?
    ensures InRange(s.bestScore.value, GeneratorRange(level)) <==> HitEnd(GeneratorRange(level), s)
    ensures !HitEnd(GeneratorRange(level), s) ==>
      var c := ClosestIndex(s.attempts, GeneratorRange(level));
      IsClosest(s.attempts, GeneratorRange(level), c) && s.bestScore == Some(s.attempts[c].score)
  {
    EndedKeepsText(fog, level, s);
    var range := GeneratorRange(level);
    if !HitEnd(range, s) {
      ClosestIndexIsClosest(s.attempts, range);
    }
  }

  /** The prompt of every pass after the first is built from a consistent
      state, whose kept score (if any) lies outside the generator's range,
      so the prompt never carries the "aim closer to the middle" note, for
      known and unknown levels alike. */
  lemma NextPromptNeverAimsForMiddle(fog: Scorer, level: string, s: Calibration)
    requires Consistent(fog, level, s) && s.bestScore.Some?
    ensures Prompts.Classify(s.bestScore.value, Prompts.PromptRange(level)) != Prompts.AimForMiddle
  {
    var c := ClosestIndex(s.attempts, GeneratorRange(level));
    assert !InRange(s.attempts[c].score, GeneratorRange(level));
  }

  /** With a provider name `generate` does not know, the first call fails
      before any text is kept, so the English path raises the wrapped error. */
  lemma EnglishUnknownProvider(g: TextGenerator, responder: Responder, fog: Scorer, build: PromptBuilder,
                               topic: string, language: string, level: string, style: string)
    requires g.provider != "ollama" && g.provider != "groq"
    ensures EnglishResult(g, EnglishCall(g, responder), fog, build, topic, language, level, style) ==
            Err(GenerationFailed(g.model, "Unknown provider: " + g.provider))
  {
    var prompt := build(topic, level, style, None, None);
    assert EnglishCall(g, responder)(0, prompt) == Failure("Unknown provider: " + g.provider);
  }

  /** When the first reply is a text in the range, that text is returned
      after one pass, with no failed text and the first prompt only. */
  lemma EnglishFirstAttemptHit(g: TextGenerator, ask: Asker, fog: Scorer, build: PromptBuilder,
                               topic: string, language: string, level: string, style: string)
    requires var reply := ask(0, build(topic, level, style, None, None));
      reply.Content? && InRange(fog(reply.text), GeneratorRange(level))
    ensures var prompt := build(topic, level, style, None, None);
      var text := ask(0, prompt).text;
      EnglishResult(g, ask, fog, build, topic, language, level, style) ==
      Ok(Schemas.GeneratedTextResponse(text, Some(fog(text)), level, language, style, Some(1), Some([]), Some([prompt])))
  {
    var prompt := build(topic, level, style, None, None);
    var text := ask(0, prompt).text;
    var t := Calibration(1, Some(text), Some(fog(text)), None, [], Some(text), [prompt], [Attempt(text, fog(text))]);
    assert Advance(g.model, fog, level, Start, prompt, ask(0, prompt)) == Done(t);
    assert Run(g, ask, fog, build, topic, level, style) == Ok(t);
  }

  /** A pass that does not raise appends its prompt and nothing else. */
  lemma AdvanceAppendsPrompt(model: string, fog: Scorer, level: string, s: Calibration, prompt: string, reply: Reply)
    ensures match Advance(model, fog, level, s, prompt, reply)
      case Continue(t) => t.promptsUsed == s.promptsUsed + [prompt]
      case Done(t) => t.promptsUsed == s.promptsUsed + [prompt]
      case Raise(_) => true
  {
  }

  /** The passes only ever append prompts. */
  lemma {:induction false} CalibrateKeepsPrompts(g: TextGenerator, ask: Asker, fog: Scorer, build: PromptBuilder,
                                                 topic: string, level: string, style: string, s: Calibration, remaining: nat)
    ensures var r := Calibrate(g, ask, fog, build, topic, level, style, s, remaining);
      r.Ok? ==> |s.promptsUsed| <= |r.value.promptsUsed| && r.value.promptsUsed[..|s.promptsUsed|] == s.promptsUsed
    decreases remaining
  {
    if remaining > 0 {
      var prompt := build(topic, level, style, s.bestScore, s.previousText);
      var reply := ask(s.iterations, prompt);
      AdvanceAppendsPrompt(g.model, fog, level, s, prompt, reply);
      match Advance(g.model, fog, level, s, prompt, reply)
      case Continue(t) =>
        CalibrateKeepsPrompts(g, ask, fog, build, topic, level, style, t, remaining - 1);
        assert t.promptsUsed[..|s.promptsUsed|] == s.promptsUsed;
      case Done(t) =>
        assert t.promptsUsed[..|s.promptsUsed|] == s.promptsUsed;
      case Raise(e) =>
    }
  }

  /** From a state with no prompt, no score and no previous text, the first
      prompt of the loop is built with neither a score nor a previous text. */
  lemma CalibrateFirstPrompt(g: TextGenerator, ask: Asker, fog: Scorer, build: PromptBuilder,
                             topic: string, level: string, style: string, s: Calibration, remaining: nat)
    requires s.promptsUsed == [] && s.bestScore.None? && s.previousText.None? && remaining > 0
    ensures var r := Calibrate(g, ask, fog, build, topic, level, style, s, remaining);
      r.Ok? ==> |r.value.promptsUsed| >= 1 && r.value.promptsUsed[0] == build(topic, level, style, None, None)
  {
    var prompt := build(topic, level, style, None, None);
    var reply := ask(s.iterations, prompt);
    AdvanceAppendsPrompt(g.model, fog, level, s, prompt, reply);
    match Advance(g.model, fog, level, s, prompt, reply)
    case Continue(t) =>
      CalibrateKeepsPrompts(g, ask, fog, build, topic, level, style, t, remaining - 1);
      assert t.promptsUsed == [prompt];
    case Done(t) =>
    case Raise(e) =>
  }

  /** The first prompt is built with neither a score nor a previous text. */
  lemma FirstPromptHasNoFeedback(g: TextGenerator, ask: Asker, fog: Scorer, build: PromptBuilder,
                                 topic: string, level: string, style: string)
    ensures var r := Run(g, ask, fog, build, topic, level, style);
      r.Ok? ==> |r.value.promptsUsed| >= 1 && r.value.promptsUsed[0] == build(topic, level, style, None, None)
  {
    CalibrateFirstPrompt(g, ask, fog, build, topic, level, style, Start, MaxIterations);
  }


}
