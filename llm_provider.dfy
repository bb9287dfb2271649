/** The provider abstraction both generators talk to: a provider name and a
    model, and the request `generate` sends for a list of chat messages.
    What the provider answers is not part of this module: callers receive
    the reply as an input. */
module LlmProvider {
  import opened Common

  /** One chat message: a role ("system", "user", ...) and its text. */
  datatype Message = Message(role: string, content: string)

  /** `next((m["content"] for m in messages if m["role"] == role), None)`:
      the content of the first message with the role, if any. */
  function FirstContent(messages: seq<Message>, role: string): Option<string> {
    if |messages| == 0 then None
    else if messages[0].role == role then Some(messages[0].content)
    else FirstContent(messages[1..], role)
  }

  /** `FirstContent` finds nothing exactly when no message has the role, and
      otherwise the content of the first message that has it. */
  lemma {:induction false} FirstContentSpec(messages: seq<Message>, role: string)
    ensures var r := FirstContent(messages, role);
      && (r.None? <==> forall i :: 0 <= i < |messages| ==> messages[i].role != role)
      && (r.Some? ==> exists i :: 0 <= i < |messages| && FirstWithRole(messages, role, i) && messages[i].content == r.value)
  {
    if messages == [] {
    } else if messages[0].role == role {
      assert FirstWithRole(messages, role, 0);
    } else {
      var tail := messages[1..];
      FirstContentSpec(tail, role);
      assert forall i :: 1 <= i < |messages| ==> messages[i] == tail[i - 1];
      var r := FirstContent(tail, role);
      if r.Some? {
        var i :| 0 <= i < |tail| && FirstWithRole(tail, role, i) && tail[i].content == r.value;
        assert FirstWithRole(messages, role, i + 1);
      }
    }
  }

  /** `messages[i]` has the role and no earlier message has it. */
  predicate FirstWithRole(messages: seq<Message>, role: string, i: nat)
    requires i < |messages|
  {
    messages[i].role == role && forall j :: 0 <= j < i ==> messages[j].role != role
  }

  /** The keyword arguments a caller may pass: a temperature and a response format. */
  datatype Options = Options(temperature: Option<real>, responseFormat: Option<string>)

  /** What `generate` sends: a single-prompt Ollama call, or a Groq chat
      completion whose payload is the model, the messages, the temperature
      and, when supplied, the response format. */
  datatype Request =
    | OllamaGenerate(model: string, prompt: string, system: Option<string>)
    | GroqChat(model: string, messages: seq<Message>, temperature: real, responseFormat: Option<string>)

  /** The temperature Groq receives when the caller gives none. */
  const DefaultTemperature: real := 1.0

  /** An `LLMProvider`: the provider name and the model it was created with. */
  datatype Provider = Provider(provider: string, model: string) {

    /** `generate`: "ollama" sends the first user message as the prompt (""
        without one) and the first system message as the system text;
        "groq" sends the messages unchanged; any other name raises, and the
        names are compared exactly. `OllamaRequest` and `GroqRequest` state
        what is sent. */
    function Generate(messages: seq<Message>, options: Options): (r: Result<Request, Raised>)
      ensures r.Ok? <==> provider == "ollama" || provider == "groq"
      ensures r.Err? ==> r.error == ValueError("Unknown provider: " + provider)
    {
      if provider == "ollama" then
        Ok(OllamaGenerate(model, FirstContent(messages, "user").GetOr(""), FirstContent(messages, "system")))
      else if provider == "groq" then
        Ok(GroqChat(model, messages, options.temperature.GetOr(DefaultTemperature), options.responseFormat))
      else
        Err(ValueError("Unknown provider: " + provider))
    }
  }

  /** For Ollama the prompt is the content of the first user message, or ""
      when there is none, and the system text is the content of the first
      system message, or nothing when there is none. */
  lemma OllamaRequest(p: Provider, messages: seq<Message>, options: Options)
    requires p.provider == "ollama"
    ensures var r := p.Generate(messages, options);
      && r.Ok? && r.value.OllamaGenerate? && r.value.model == p.model
      && ((forall i :: 0 <= i < |messages| ==> messages[i].role != "user") ==> r.value.prompt == "")
      && (forall i :: 0 <= i < |messages| && FirstWithRole(messages, "user", i) ==> r.value.prompt == messages[i].content)
      && (r.value.system.None? <==> forall i :: 0 <= i < |messages| ==> messages[i].role != "system")
      && (forall i :: 0 <= i < |messages| && FirstWithRole(messages, "system", i) ==> r.value.system == Some(messages[i].content))
  {
    FirstContentSpec(messages, "user");
    FirstContentSpec(messages, "system");
    FirstIsUnique(messages, "user");
    FirstIsUnique(messages, "system");
  }

  /** For Groq the payload carries the model, the messages unchanged, the
      caller's temperature or else 1, and the response format exactly when
      the caller supplied one. */
  lemma GroqRequest(p: Provider, messages: seq<Message>, options: Options)
    requires p.provider == "groq"
    ensures var r := p.Generate(messages, options);
      && r.Ok? && r.value.GroqChat? && r.value.model == p.model && r.value.messages == messages
      && (options.temperature.None? ==> r.value.temperature == DefaultTemperature)
      && (options.temperature.Some? ==> r.value.temperature == options.temperature.value)
      && (r.value.responseFormat.Some? <==> options.responseFormat.Some?)
      && r.value.responseFormat == options.responseFormat
  {
  }

  /** At most one position is the first with a role. */
  lemma FirstIsUnique(messages: seq<Message>, role: string)
    ensures forall i, j ::
      0 <= i < |messages| && 0 <= j < |messages| && FirstWithRole(messages, role, i) && FirstWithRole(messages, role, j)
      ==> i == j
  {
  }

  /** Whenever a list holds a user message, the Ollama prompt is the
      content of the first user message at or before it; a later user
      message never becomes the prompt unless it repeats that content. */
  lemma {:induction false} OllamaUsesFirstUserMessage(p: Provider, messages: seq<Message>, options: Options, j: nat)
    requires p.provider == "ollama"
    requires j < |messages| && messages[j].role == "user"
    ensures var r := p.Generate(messages, options);
      r.Ok? && exists i :: 0 <= i <= j && FirstWithRole(messages, "user", i) && r.value.prompt == messages[i].content
  {
    OllamaRequest(p, messages, options);
    FirstContentSpec(messages, "user");
    var i :| 0 <= i < |messages| && FirstWithRole(messages, "user", i)
             && messages[i].content == FirstContent(messages, "user").value;
    assert i <= j;
  }
}
