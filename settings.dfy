/** The configuration defaults of the backend and the default-model rule
    both generator services apply in their constructors. */
module Settings {
  import opened Common
  import opened Strings

  const OllamaProvider: string := "ollama"
  const GroqProvider: string := "groq"
  const OllamaModel: string := "gemma3:12b"
  const GroqModel: string := "llama-3.1-8b-instant"

  /** The model a generator uses: the one it was given, or else the Groq
      default when the provider lower-cased is "groq" and the Ollama default
      otherwise. */
  function ResolveModel(model: Option<string>, provider: string): (m: string)
    ensures model.Some? ==> m == model.value
    ensures model.None? ==> (m == GroqModel <==> Lower(provider) == GroqProvider)
    ensures model.None? ==> (m == OllamaModel <==> Lower(provider) != GroqProvider)
  {
    match model
    case Some(given) => given
    case None => if Lower(provider) == GroqProvider then GroqModel else OllamaModel
  }

  /** The default-model choice depends on the provider only up to case:
      two provider names that lower-case alike get the same model, and
      every spelling of "groq" ("Groq", "GROQ", ...) gets the Groq model. */
  lemma ResolveModelIgnoresCase(p: string, q: string)
    requires Lower(p) == Lower(q)
    ensures ResolveModel(None, p) == ResolveModel(None, q)
    ensures Lower(p) == GroqProvider ==> ResolveModel(None, p) == GroqModel && ResolveModel(None, q) == GroqModel
    ensures Lower(p) != GroqProvider ==> ResolveModel(None, p) == OllamaModel && ResolveModel(None, q) == OllamaModel
  {
  }
}
