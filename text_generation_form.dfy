/** `TextGenerationForm`: the form the passage is requested with. Its state
    is one record of six text fields, changed one field at a time by the
    inputs or replaced whole by `initialData`, and handed over unchanged on
    submit. */
module TextGenerationForm {
  import opened Common
  import Schemas
  import LlmProvider

  /** The form's fields. */
  datatype FormData = FormData(
    topic: string, language: string, level: string, style: string,
    provider: string, questionProvider: string)

  /** The `name` of each input. */
  datatype FieldName = Topic | Language | Level | Style | ProviderField | QuestionProvider

  const InitialForm: FormData := FormData("", "English", "Basic", "Formal", "ollama", "ollama")

  /** The value of one field. */
  function Get(form: FormData, name: FieldName): string {
    match name
    case Topic => form.topic
    case Language => form.language
    case Level => form.level
    case Style => form.style
    case ProviderField => form.provider
    case QuestionProvider => form.questionProvider
  }

  /** `{...formData, [name]: value}`. */
  function With(form: FormData, name: FieldName, value: string): (r: FormData)
    ensures Get(r, name) == value
    ensures forall other :: other != name ==> Get(r, other) == Get(form, other)
  {
    match name
    case Topic => form.(topic := value)
    case Language => form.(language := value)
    case Level => form.(level := value)
    case Style => form.(style := value)
    case ProviderField => form.(provider := value)
    case QuestionProvider => form.(questionProvider := value)
  }

  /** A field set to the value it already has leaves the form as it was,
      and setting a field twice keeps only the second value. */
  lemma WithIdempotent(form: FormData, name: FieldName, first: string, second: string)
    ensures With(form, name, Get(form, name)) == form
    ensures With(With(form, name, first), name, second) == With(form, name, second)
  {
  }

  /** Two changes to different fields give the same form in either order. */
  lemma WithCommutes(form: FormData, a: FieldName, b: FieldName, x: string, y: string)
    requires a != b
    ensures With(With(form, a, x), b, y) == With(With(form, b, y), a, x)
  {
  }

  /** The provider shown in the question-provider drop-down:
      `formData.questionProvider || "ollama"`. */
  function ShownQuestionProvider(form: FormData): (p: string)
    ensures form.questionProvider == "" ==> p == "ollama"
    ensures form.questionProvider != "" ==> p == form.questionProvider
  {
    if form.questionProvider != "" then form.questionProvider else "ollama"
  }

  /** The choices of the level drop-down, and of both provider drop-downs. */
  const LevelChoices: seq<string> := ["Basic", "Intermediate", "Advanced"]
  const ProviderChoices: seq<string> := ["ollama", "groq"]

  /** The level choices are exactly the backend's levels. */
  lemma LevelChoicesAreLevels()
    ensures forall c :: c in LevelChoices ==> Schemas.ParseLevel(c).Some?
    ensures forall level: Schemas.Level :: Schemas.LevelValue(level) in LevelChoices
  {
    forall level: Schemas.Level
      ensures Schemas.LevelValue(level) in LevelChoices
    {
      match level
      case Basic =>
      case Intermediate =>
      case Advanced =>
    }
    Schemas.LevelRoundTrip(Schemas.Basic);
    Schemas.LevelRoundTrip(Schemas.Intermediate);
    Schemas.LevelRoundTrip(Schemas.Advanced);
  }

  /** The provider choices are exactly the providers the backend's
      `generate` accepts: each builds a request, and any other name is
      refused. */
  lemma ProviderChoicesAreProviders(model: string, messages: seq<LlmProvider.Message>, options: LlmProvider.Options)
    ensures forall p :: p in ProviderChoices ==> LlmProvider.Provider(p, model).Generate(messages, options).Ok?
    ensures forall p :: LlmProvider.Provider(p, model).Generate(messages, options).Ok? ==> p in ProviderChoices
  {
  }

  class Form {
    var formData: FormData

    /** The initial form. */
    constructor()
      ensures formData == InitialForm
    {
      formData := InitialForm;
    }

    /** `handleInputChange`: the named field takes the value. */
    method HandleInputChange(name: FieldName, value: string)
      modifies this
      ensures formData == With(old(formData), name, value)
    {
      match name {
        case Topic => formData := formData.(topic := value);
        case Language => formData := formData.(language := value);
        case Level => formData := formData.(level := value);
        case Style => formData := formData.(style := value);
        case ProviderField => formData := formData.(provider := value);
        case QuestionProvider => formData := formData.(questionProvider := value);
      }
    }

    /** The `initialData` effect: a given record replaces the form whole,
        none leaves it alone. */
    method ApplyInitialData(initialData: Option<FormData>)
      modifies this
      ensures initialData.Some? ==> formData == initialData.value
      ensures initialData.None? ==> formData == old(formData)
    {
      if initialData.Some? {
        formData := initialData.value;
      }
    }

    /** `handleSubmit`: the form as it stands is what `onGenerateText` gets. */
    method HandleSubmit() returns (submitted: FormData)
      ensures submitted == formData
    {
      submitted := formData;
    }
  }
}
