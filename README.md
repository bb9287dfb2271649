# Reading-passage generator: a Dafny model

The system is a reading-practice dashboard with two stages. First the user
asks for a reading passage on a topic, at a level, in a language and a
style. Then the user asks for multiple-choice comprehension questions about
that passage. The Python backend builds the prompts and talks to a language
model through Ollama or Groq. English passages are calibrated: up to ten
attempts are made, and each attempt's Gunning Fog score steers the next
prompt. The backend also lists the models it can use. The React front end
holds the form, one small state machine per stage, the model catalog and
the model selector.

This project models the decision rules and state handling on both sides.

- **Backend** (one module per source file):
  - `Settings`: the defaults and the default-model rule.
  - `Schemas`: request and response records, and the request validation.
  - `Prompts`: the level tables, the feedback note and both prompt builders.
  - `LlmProvider`: message extraction, request construction and provider dispatch.
  - `TextGenerator`: topic validation, the calibration loop as an imperative method, and the single-shot path.
  - `QuestionGenerator`: passage validation, the prompt, provider dispatch, count-mismatch and parse-failure handling.
  - `ModelsRouter`: the whisper/tts filter, the fallbacks and the combined order.
- **Front end:**
  - `Api`: the error-message rules.
  - `TextGenerationHook` and `QuestionGenerationHook`: each hook is a class with `Start` and `Complete` methods.
  - `ModelsHook`: the provider partition and the fetch state.
  - `ModelSelector`: available models, the default effect and the shown value.
  - `TextGenerationForm`: the form record and its updates.
  - `App`: the combined error and the two handlers.
- **Shared:**
  - `Common`: Option, Result and JavaScript truthiness.
  - `Strings`: Python's `strip`, lower-casing, substring search, decimal rendering, JavaScript's `parseInt(_, 10)` and `:.2f`.

Everything outside the program is an input:

- The language model's replies are a `Responder` function from the request to a reply.
- The Gunning Fog score is a `Scorer` function from a text to a `real`.
- The Pydantic parse of the model's JSON is a `Validator` function.
- Each HTTP exchange is an `HttpOutcome`: delivered, refused with a status, or thrown.
- The Ollama and Groq listings are `OllamaListing` and `GroqListing` values.

### Where the design description and the code differ

The model follows the code in every case below.

- **No request tagging.** The design calls for sequence numbers so that a stale response is discarded. The code has none: each completion writes unconditionally, so a late response wins. `TextGenerationHook.OverlappingCalls` shows the outcome. When one call fails and an overlapping one delivers, both the passage and the error end up on screen, whichever completes last: a late failure does not clear the passage, and a late success does not clear the error.
- **Error precedence.** The design says the most recent failure is shown. The code shows `textError || questionsError`, so a non-empty passage error always wins, in either order of failure (`App.TextErrorWins`, `App.TextFailsThenQuestions`, `App.QuestionsFailThenText`).
- **New passages keep the questions.** The design says a new passage submission clears the questions and both errors. The code clears only the passage stage. The questions, their visibility and the question error survive (`App.HandleGenerateText`).
- **No selection repair.** The design says the model selection is repaired when the provider changes. The code never replaces a non-empty selection, even one the provider does not offer (`ModelSelector.SelectionIsKept`).
- **No quiz engine.** The design describes one; the code has no answer-tracking or scoring state, so none is modelled.

## Model

| member | source | states |
|---|---|---|
| Settings.ResolveModel | Backend/services/text_generator.py:59-65 | A given model is kept. Without one, the Groq default is chosen exactly when the provider lower-cased is "groq", and the Ollama default otherwise. |
| Settings.ResolveModelIgnoresCase | Backend/services/question_generator.py:17-22 | Any two provider names that lower-case alike get the same default model: the Groq model for every spelling of "groq", the Ollama model otherwise. |
| Schemas.ParseLevel | Backend/models/schemas.py:9-12 | A level string is accepted exactly when it is "Basic", "Intermediate" or "Advanced", and is read back as that level. |
| Schemas.LevelRoundTrip | Backend/models/schemas.py:9-12 | Parsing a level's value gives back the level. |
| Schemas.ValidateTextRequest | Backend/models/schemas.py:18-28 | A passage request is valid exactly when topic, language, level and style are given, the level is one of the three, and the provider is not null. The valid request carries those values; an absent provider becomes "ollama" and an absent or null model None. |
| Schemas.ValidateQuestionsRequest | Backend/models/schemas.py:57-73 | A question request is valid exactly when passage, counts, language and provider are given, with the model optional and defaulting to None. The valid request carries exactly those values. |
| Prompts.RangeOr | Backend/core/prompts.py:4-8 | The range lookup gives the table's range for a known level and the given default for any other. |
| Prompts.WordTargetIsLookup | Backend/core/prompts.py:10-15 | The word target is the table's entry for a known level, and "None" (as the f-string renders a missing entry) otherwise. |
| Prompts.LevelTables | Backend/core/prompts.py:4-15 | Both tables have exactly the three levels. The ranges are 0-6, 6-12 and 12-25, and adjacent ranges share their endpoints. |
| Prompts.Classify | Backend/core/prompts.py:37-42 | Exactly one verdict holds. A score below the low end is "too simple", a score above the high end is "too complex", and a score inside the inclusive range is "aim for the middle". |
| Prompts.FeedbackNoteShape | Backend/core/prompts.py:35-42 | There is a feedback note exactly when a previous score is given, and the note ends in non-whitespace. |
| Prompts.ReferenceBlockShape | Backend/core/prompts.py:43-44 | The reference block is present exactly when the previous text is non-empty. |
| Prompts.ReferenceQuotesText | Backend/core/prompts.py:44 | The reference block contains the previous text in full. |
| Prompts.EnglishPromptIsStripped | Backend/core/prompts.py:25-45 | The English prompt equals the indented template followed by the note and then the block, stripped of surrounding whitespace. |
| Prompts.EnglishPromptLayout | Backend/core/prompts.py:35-45 | With no score and no previous text, the prompt is the bare template. Otherwise it is the template, whitespace, the note and then the block, in that order. |
| Prompts.EnglishPromptKeepsCore | Backend/core/prompts.py:25-45 | Anything the template contains, the prompt contains, whatever feedback follows. |
| Prompts.OpeningMentions | Backend/core/prompts.py:26 | The opening sentence quotes the topic and contains the lower-cased level and style. |
| Prompts.EnglishCoreMentions | Backend/core/prompts.py:26-33 | The template quotes the topic, contains the lower-cased level and style, and names the level's word target. |
| Prompts.EnglishPromptMentions | Backend/core/prompts.py:18-45 | The English prompt quotes the topic, contains the lower-cased level and style, and names the word target, for every score and previous text. |
| Prompts.OtherLanguagePromptIsStripped | Backend/core/prompts.py:48-65 | The other-language prompt is its indented template stripped of surrounding whitespace, with nothing appended. |
| LlmProvider.FirstContentSpec | Backend/services/llm_provider.py:40-43 | The first-match lookup finds nothing exactly when no message has the role. Otherwise it finds the content of the first message that has the role. |
| LlmProvider.Provider.Generate | Backend/services/llm_provider.py:38-81 | A request is built exactly for "ollama" and "groq". Any other provider gives ValueError("Unknown provider: …"). |
| LlmProvider.OllamaRequest | Backend/services/llm_provider.py:38-55 | For Ollama, the prompt is the first user message's content, or "" if there is none. The system text is the first system message's content, or None if there is none. |
| LlmProvider.GroqRequest | Backend/services/llm_provider.py:57-69 | The Groq payload carries the model and the unchanged messages. The temperature is the caller's, or 1 by default. A response format is present exactly when the caller gave one. |
| LlmProvider.FirstIsUnique | Backend/services/llm_provider.py:40-43 | At most one position is the first message with a given role. |
| LlmProvider.OllamaUsesFirstUserMessage | Backend/services/llm_provider.py:39-41 | For any message list holding a user message, the Ollama prompt is the content of the first user message at or before it. A later user message becomes the prompt only by repeating that content. |
| TextGenerator.NewTextGenerator | Backend/services/text_generator.py:49-67 | The generator records the provider, and the given model or the lower-cased-provider default. |
| TextGenerator.Call | Backend/services/text_generator.py:147 | A call through a provider the backend does not know fails with "Unknown provider: …". |
| TextGenerator.GeneratorRange | Backend/services/text_generator.py:153 | The calibration range is the table's range for a known level and (0, 25) for any other. |
| TextGenerator.Distance | Backend/services/text_generator.py:154-155 | The difference is the absolute distance between the score and the range centre. |
| TextGenerator.EnglishResult | Backend/services/text_generator.py:128-193 | The calibrated path either raises the wrapped call error or returns the requested level, language and style with a score. In the second case there are 1 to 10 iterations, exactly one prompt per iteration, and at most one failed text per iteration. |
| TextGenerator.GenerateTextEnglish | Backend/services/text_generator.py:128-193 | The loop, with its running best text, score, difference, previous text, failed texts and prompts, returns exactly what the calibration specification gives. |
| TextGenerator.OtherLanguageResult | Backend/services/text_generator.py:212-237 | The single call succeeds exactly when the reply is a text of at least 20 characters. Success reports iterations 1, prompts [prompt] and failed texts [] with no score. A failed call, or a reply that is too short, raises the wrapped error. |
| TextGenerator.GenerateText | Backend/services/text_generator.py:100-109 | A whitespace-only topic raises ValueError("Topic cannot be empty") before any call. Exactly "English" takes the calibrated path; any other language takes the single call. |
| TextGenerator.FailedLinesSpec | Backend/services/text_generator.py:161-163 | There is one failed-text line per out-of-range attempt, the k-th numbered k+1. |
| TextGenerator.ClosestIndex | Backend/services/text_generator.py:164-167 | The index of the attempt kept as closest lies within the attempts. |
| TextGenerator.ClosestIndexIsClosest | Backend/services/text_generator.py:164-167 | The kept attempt is at least as close to the centre as every attempt, and strictly closer than every earlier attempt, so ties keep the earlier text. |
| TextGenerator.ClosestIsUnique | Backend/services/text_generator.py:164-167 | Only one attempt satisfies that rule. |
| TextGenerator.AdvanceStep | Backend/services/text_generator.py:137-176 | One pass from a consistent state does one of three things. It goes on from a consistent state: every attempt missed, each is recorded once, and the closest is kept. Or it ends at the first in-range attempt, or at a failed call after a kept text. Or it raises the wrapped error when no non-empty text is kept. |
| TextGenerator.CalibrateOutcome | Backend/services/text_generator.py:136-176 | From a consistent state, the loop either raises only the wrapped call error or ends in one of the three allowed ways: hit, stopped, or exhausted after ten misses. |
| TextGenerator.RunOutcome | Backend/services/text_generator.py:128-176 | The loop as run from its initial variables raises only the wrapped call error, or ends in one of the allowed ways. |
| TextGenerator.EndedKeepsText | Backend/services/text_generator.py:178-180 | A loop that ended keeps a text and a score, so the "could not generate suitable text" branch is never taken. At most one failed text is recorded per iteration. |
| TextGenerator.InRangeIffHit | Backend/services/text_generator.py:157-167 | The returned score lies in the range exactly when the loop stopped at a hit. Otherwise the returned score is that of the closest missed attempt. |
| TextGenerator.NextPromptNeverAimsForMiddle | Backend/services/text_generator.py:138-139 | A score fed back into the next prompt is never classified "aim for the middle", for known and unknown levels alike. |
| TextGenerator.EnglishUnknownProvider | Backend/services/text_generator.py:169-176 | With an unknown provider, the first call fails before any text is kept, and the English path raises the wrapped "Unknown provider" error. |
| TextGenerator.EnglishFirstAttemptHit | Backend/services/text_generator.py:157-160 | A first reply in range is returned after one iteration, with its score, no failed text and only the first prompt. |
| TextGenerator.AdvanceAppendsPrompt | Backend/services/text_generator.py:138-140 | Each pass that does not raise appends exactly its own prompt. |
| TextGenerator.CalibrateKeepsPrompts | Backend/services/text_generator.py:136-140 | The passes only ever append prompts; earlier prompts are kept. |
| TextGenerator.CalibrateFirstPrompt | Backend/services/text_generator.py:133-140 | From a state with no prompt, score or previous text, the first recorded prompt is built with neither a score nor a previous text. |
| TextGenerator.FirstPromptHasNoFeedback | Backend/services/text_generator.py:128-140 | The first prompt of a run is built with neither a score nor a previous text. |
| QuestionGenerator.NewQuestionGenerator | Backend/services/question_generator.py:14-25 | The generator records the provider, and the given model or the lower-cased-provider default. |
| QuestionGenerator.QuestionPromptAsks | Backend/services/question_generator.py:32-61 | The prompt contains the passage, "exactly n multiple-choice comprehension questions" and "exactly c plausible answer choices". |
| QuestionGenerator.Answer | Backend/services/question_generator.py:86-102 | A reply yields the validated questions exactly when it is a text that validates. A failed call is wrapped as "Error generating questions with model …". A text that does not validate gives "Could not parse valid JSON questions from the model: …", wrapped the same way. |
| QuestionGenerator.Dispatch | Backend/services/question_generator.py:66-71 | Dispatch is by exact match. The result is a ValueError exactly when the provider is neither "ollama" nor "groq", and then it is ValueError("Unknown provider: …"). |
| QuestionGenerator.GenerateQuestions | Backend/services/question_generator.py:27-71 | A whitespace-only passage raises ValueError("Generated text cannot be empty") before any call. Otherwise the passage prompt is dispatched. |
| QuestionGenerator.DispatchAnswers | Backend/services/question_generator.py:73-132 | For a known provider, the result is the answer to one call. For Ollama it is a chat with the system message, the prompt, format "json" and temperature 0.5. For Groq it is a chat with the count-demanding system message, temperature 0.5 and response format json_object. |
| QuestionGenerator.CountMismatchPassesThrough | Backend/services/question_generator.py:90-93 | A validated response with a different number of questions than requested is returned unchanged. |
| QuestionGenerator.ParseFailureIsWrapped | Backend/services/question_generator.py:94-102 | A reply that does not validate gives the parse error, wrapped with the model name. |
| QuestionGenerator.DispatchIsCaseSensitive | Backend/services/question_generator.py:17-22 | Provider "Groq" gets the Groq default model, yet generation refuses it as an unknown provider. |
| ModelsRouter.Listed | Backend/routers/models.py:45-54 | Each listed entry carries the provider, comes from the input and has no "whisper" or "tts" in its lower-cased id. Every usable id is listed. |
| ModelsRouter.ListedAppend | Backend/routers/models.py:52-53 | The filter keeps the source order: listing a concatenation lists each part in turn. |
| ModelsRouter.ListedKeepsUsable | Backend/routers/models.py:45-53 | Ids that are all usable are listed one for one, in order. |
| ModelsRouter.OllamaPart | Backend/routers/models.py:42-60 | Every Ollama entry is tagged "ollama" and usable. An unreachable Ollama gives exactly the one fallback entry. |
| ModelsRouter.GroqPart | Backend/routers/models.py:63-100 | Every Groq entry is tagged "groq" and usable. A missing key, a non-200 status or an exception gives exactly the one fallback entry. |
| ModelsRouter.GetModels | Backend/routers/models.py:39-102 | The list is the Ollama part followed by the Groq part. Every entry is "ollama" or "groq", all Ollama entries come first, and every id is usable. When a provider fails, its single fallback sits at its end of the list. |
| ModelsRouter.FallbacksUsable | Backend/routers/models.py:56-100 | The fallback model ids pass the whisper/tts filter. |
| Api.ErrorDetail | src/services/api.js:25-26 | For a string or missing detail: the detail is the body's detail when it is truthy, and the status text otherwise, including when the body is unreadable. |
| Api.TextErrorMessageSpec | src/services/api.js:28-37 | The message starts with "API key error: " exactly when the detail mentions "API key" or "GROQ_API_KEY", and is then that head, the detail and the .env setup hint. Otherwise it is "Failed to generate text: " followed by the detail and nothing else. |
| Api.QuestionsErrorMessageSpec | src/services/api.js:62-66 | The message is "Failed to generate questions: ", then a status that parses back to the status, then the status text. |
| Api.TextCall | src/services/api.js:24-44 | The call succeeds exactly when the body is delivered, and then returns it unchanged. A refusal gives the text error message, and a thrown error keeps its message. |
| Api.QuestionsCall | src/services/api.js:62-72 | The call succeeds exactly when the body is delivered, and then returns it unchanged. A refusal gives the questions error message, and a thrown error keeps its message. |
| TextGenerationHook.CompleteText | src/hooks/useTextGeneration.js:22-47 | A completion ends loading. Success sets the passage; failure sets the error and keeps the passage. |
| TextGenerationHook.TextReturn | src/hooks/useTextGeneration.js:38-44 | The hook returns the passage exactly on success, and null otherwise. |
| TextGenerationHook.TextGeneration.constructor | src/hooks/useTextGeneration.js:4-6 | The initial state is text "", not loading, no error. |
| TextGenerationHook.TextGeneration.Start | src/hooks/useTextGeneration.js:9-11 | A start sets loading, clears the error and empties the passage. |
| TextGenerationHook.TextGeneration.Complete | src/hooks/useTextGeneration.js:13-47 | A completion moves the state as the completion rule says, whichever start it belongs to, and returns the passage or null. |
| TextGenerationHook.TextGeneration.GenerateText | src/hooks/useTextGeneration.js:8-47 | One call is a start followed by a completion. |
| TextGenerationHook.OneCall | src/hooks/useTextGeneration.js:8-47 | After one call, success shows the passage with no error. Failure leaves the passage "" and the error set. |
| TextGenerationHook.OverlappingCalls | src/hooks/useTextGeneration.js:8-47 | Completions are not tagged. With one failed and one delivered call overlapping, both the passage and the error are shown afterwards, in either order of completion; the first completion ends loading while the other call still runs. |
| QuestionGenerationHook.CompleteQuestions | src/hooks/useQuestionGeneration.js:42-58 | A completion ends loading. Success sets and shows the questions; failure sets the error and keeps the list and its visibility. |
| QuestionGenerationHook.QuestionsResult | src/hooks/useQuestionGeneration.js:48-55 | The hook returns the questions exactly on success, and null otherwise. |
| QuestionGenerationHook.RequestBody | src/hooks/useQuestionGeneration.js:25-32 | The body carries the passage, language, provider and model. Both counts pass through `parseInt(_, 10)` unchanged, as plain decimal renderings. |
| QuestionGenerationHook.RequestBodyValidates | src/hooks/useQuestionGeneration.js:25-32 | Every body the hook sends passes the backend's request validation, with the caller's counts and model. |
| QuestionGenerationHook.QuestionGeneration.constructor | src/hooks/useQuestionGeneration.js:4-7 | The initial state has no questions, is not loading, has no error and shows nothing. |
| QuestionGenerationHook.QuestionGeneration.Start | src/hooks/useQuestionGeneration.js:19-22 | A start sets loading, empties the list, clears the error and hides the questions. |
| QuestionGenerationHook.QuestionGeneration.Complete | src/hooks/useQuestionGeneration.js:24-58 | A completion moves the state as the completion rule says and returns the questions or null. |
| QuestionGenerationHook.QuestionGeneration.GenerateQuestions | src/hooks/useQuestionGeneration.js:9-58 | An empty passage changes nothing and sends nothing. Otherwise one call is a start, the body sent, and a completion. |
| QuestionGenerationHook.OneCall | src/hooks/useQuestionGeneration.js:19-58 | After one call, success shows the questions with no error. Failure leaves the list empty and hidden, with the error set. |
| ModelsHook.OfProvider | src/hooks/useModels.js:25-30 | The filter keeps only entries of the provider, taken from the input, and keeps every one of them. |
| ModelsHook.OfProviderAppend | src/hooks/useModels.js:25-30 | The filter keeps the input order. |
| ModelsHook.OfProviderAll | src/hooks/useModels.js:25-30 | A list of one provider's entries is kept whole. |
| ModelsHook.OfProviderNone | src/hooks/useModels.js:25-30 | A list without the provider's entries gives nothing. |
| ModelsHook.PartitionOfTagged | src/hooks/useModels.js:25-35 | Ollama entries followed by Groq entries are partitioned back into exactly the two lists. |
| ModelsHook.PartitionOfEndpoint | src/hooks/useModels.js:25-35 | Partitioning the models endpoint's list gives back its Ollama part and its Groq part. |
| ModelsHook.CompleteModels | src/hooks/useModels.js:32-50 | A completion ends loading. Success replaces the whole catalog by the partition; failure keeps the catalog and sets the error. |
| ModelsHook.Models.constructor | src/hooks/useModels.js:9-14 | The initial catalog is empty for both providers, not loading and with no error. |
| ModelsHook.Models.Start | src/hooks/useModels.js:18-19 | A start sets loading and clears the error, keeping the catalog. |
| ModelsHook.Models.Complete | src/hooks/useModels.js:21-50 | A completion moves the state as the completion rule says. It returns the partition, or empty lists after a failure. |
| ModelsHook.Models.FetchModels | src/hooks/useModels.js:17-51 | One fetch is a start followed by a completion. |
| ModelSelector.Available | src/components/UI/ModelSelector.js:18-24 | The available models are the catalog's list for "ollama" or "groq", and nothing for a missing or unknown provider. |
| ModelSelector.DefaultChoice | src/components/UI/ModelSelector.js:27-31 | A default is pushed exactly when models are offered and nothing is selected, and it is the first model's id. |
| ModelSelector.Shown | src/components/UI/ModelSelector.js:57 | The drop-down shows the selection when it is truthy, else the first offered model's id, else the empty string. |
| ModelSelector.SelectionIsKept | src/components/UI/ModelSelector.js:27-57 | A non-empty selection is never replaced and is what the drop-down shows. |
| ModelSelector.DefaultIsWhatWasShown | src/components/UI/ModelSelector.js:27-57 | Pushing the default does not change the shown value, and afterwards there is nothing more to push. |
| ModelSelector.UserChoiceIsForwarded | src/components/UI/ModelSelector.js:34-36 | A user's choice is kept as it is and shown. |
| ModelSelector.ModelSelector.constructor | src/components/UI/ModelSelector.js:15 | No model is offered before the first effect. |
| ModelSelector.ModelSelector.SyncAvailable | src/components/UI/ModelSelector.js:18-24 | The first effect sets the offered models to the available ones. |
| ModelSelector.ModelSelector.PushDefault | src/components/UI/ModelSelector.js:27-31 | The second effect reports exactly the default choice. |
| TextGenerationForm.With | src/components/TextGenerationForm.js:21-27 | An input change sets the named field and leaves every other field unchanged. |
| TextGenerationForm.WithIdempotent | src/components/TextGenerationForm.js:21-27 | Setting a field to its current value changes nothing, and setting it twice keeps only the second value. |
| TextGenerationForm.WithCommutes | src/components/TextGenerationForm.js:21-27 | Changes to different fields commute. |
| TextGenerationForm.ShownQuestionProvider | src/components/TextGenerationForm.js:108 | An empty question provider is shown as "ollama"; any other is shown as it is. |
| TextGenerationForm.LevelChoicesAreLevels | src/components/TextGenerationForm.js:65-74 | The level choices are exactly the backend's levels. |
| TextGenerationForm.ProviderChoicesAreProviders | src/components/TextGenerationForm.js:92-100 | The provider choices are exactly the providers the backend's `generate` accepts: each builds a request, and every other name is refused. |
| TextGenerationForm.Form.constructor | src/components/TextGenerationForm.js:6-13 | The initial form is topic "", language "English", level "Basic", style "Formal", and both providers "ollama". |
| TextGenerationForm.Form.HandleInputChange | src/components/TextGenerationForm.js:21-27 | The form becomes the old form with the named field set. |
| TextGenerationForm.Form.ApplyInitialData | src/components/TextGenerationForm.js:15-19 | Given data replaces the whole form; none leaves it alone. |
| TextGenerationForm.Form.HandleSubmit | src/components/TextGenerationForm.js:29-32 | The current form is submitted unchanged. |
| App.CombinedError | src/App.js:53 | The shown error is the passage error when it is truthy, and the question error otherwise. |
| App.TextErrorWins | src/App.js:30-53 | After a failed passage request, a non-empty passage error is shown whatever the question stage holds, and an empty one lets the question error through. The failure also empties the passage. |
| App.TextFailsThenQuestions | src/App.js:30-53 | The passage fails, then questions are asked for: nothing is sent, the question stage is unchanged, and the passage error is shown (or the earlier question error, if the passage message is empty). |
| App.QuestionsFailThenText | src/App.js:30-53 | The questions fail, then a new passage fails: the request was sent and the question error is set, yet the passage error is shown (or the question error, if the passage message is empty). |
| App.QuestionsRequestFor | src/App.js:35-37 | The question request carries the current passage, "English", "ollama", 5 questions, 4 choices and no model. |
| App.FormValidates | src/App.js:30-32 | A submitted form passes the backend's validation exactly when its level is one of the three, and then carries the form's fields. The initial form passes. |
| App.HandleGenerateText | src/App.js:13-32 | The form goes out unchanged and only the passage stage moves. The question stage is untouched. |
| App.HandleGenerateQuestions | src/App.js:35-37 | Only the question stage moves, with the app's fixed arguments. Without a passage, nothing is sent. |
| App.AppQuestionRequestValidates | src/App.js:35-37 | The app's question request passes the backend's validation as 5 questions of 4 choices, in English, for Ollama, with no model. |
| Strings.Strip | Backend/services/text_generator.py:100 | `strip()` removes exactly the leading and trailing whitespace: the result is a slice of the input surrounded by whitespace only, and does not start or end with whitespace. |
| Strings.StripEmptyIffAllSpace | Backend/services/question_generator.py:29 | `not s.strip()` holds exactly for whitespace-only strings. |
| Strings.Lower | Backend/routers/models.py:53 | Lower-casing keeps the length and lowers each character. |
| Strings.ParseIntOfRendered | src/hooks/useQuestionGeneration.js:27-29 | `parseInt(_, 10)` of an integer's plain decimal rendering gives the integer back. |

## Left out

- **I/O and concurrency.** Network and language-model calls (`ollama.generate`, `ollama.chat`, `ollama.list`, the Groq HTTP API, `fetch`) are inputs, not behaviour. So are the environment lookup of the Groq API key and logging (`print`, `console.error`). Async interleaving is modelled only as separate start and completion steps.
- **Gunning Fog** (`textstat.gunning_fog`, Backend/services/text_generator.py:151) is the `Scorer` input. The scorer is total, so the case where scoring itself raises inside the `try` (handled like a failed call: stop if a text is kept, otherwise raise the wrapped error) does not arise in the model.
- **Pydantic JSON parsing and validation of the model's reply** (Backend/services/question_generator.py:88-89,118-119) is the `Validator` input.
- `Strings.Fixed2`: models `:.2f` by rounding the exact real half up. Python rounds the binary double half to even, so the last digit can differ.
- `Strings.ParseIntOfRendered`: renders every integer in plain decimal. JavaScript numbers are doubles: from 1e21 up `String(n)` uses exponent notation ("1e+21", which `parseInt` reads as 1), integers past 2^53 are not exact, and fractional counts are not modelled.
- `QuestionGenerationHook.RequestBody`: inherits that gap; its counts come back unchanged only for the integers a JavaScript number renders in plain decimal. The app itself always passes 5 and 4.
- `Api.ErrorDetail`: models the body's `detail` as a string or missing. A truthy non-string detail (such as the list of validation errors of an HTTP 422) is not modelled; JavaScript would render it as "[object Object]" in the message, or throw if it has no `includes`. A body that parses to JSON `null` is not modelled either; reading `.detail` on it throws a TypeError whose message becomes the error.
- `Strings.Lower`: lower-cases ASCII letters only; Python and JavaScript also lower-case other scripts.
- `{level}` in the prompts is the plain level string. A `LevelEnum` member passed straight from the request could render as "LevelEnum.Basic" on Python 3.11 and later.
- `TextGenerator.EnglishResult`: does not state the exact text of the "could not generate suitable text after … iterations" error. `TextGenerator.EndedKeepsText` shows that branch is never reached.
- `ModelInfo.details` (tags, size, owner, context window) is not modelled; only the id and the provider are.
- **Routers and the models endpoint:**
  - The HTTP routers for text and questions are not modelled. They pass only the provider, so a requested model is dropped, and they turn every exception into an HTTP 500 with the message as detail.
  - The `/models` router is never mounted.
  - `useModels` calls an `apiClient.getAvailableModels` that the API client does not define. `ModelsHook` takes the fetch result as an input instead.
- `get_available_models` and `check_model_availability` (Backend/services/text_generator.py:20-77) wrap `ollama.list` and nothing calls them in the core.
- `ModelSelector.Available`: treats only "ollama" and "groq" as catalog keys. `models[provider]` in JavaScript would also find inherited object properties such as "constructor".
- **Rendering components** (GeneratedContent, QuestionsDisplay, Header, LoadingSpinner) and the JSX of the form and the selector are not modelled. The loading and error views of the selector are left out too.
- The other-language path takes the call as an `Asker`, so the unknown-provider case of that path is stated by `TextGenerator.OtherLanguageResult` for any failed call, not for the provider dispatch specifically.
