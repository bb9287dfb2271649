/** `useModels`: the front end's model catalog, one list per provider, with
    a loading flag and the last error. A fetch is a start followed by a
    completion with the flat list the backend sent, or with the message of
    the failure. */
module ModelsHook {
  import opened Common
  import opened ModelsRouter

  /** The catalog: the Ollama models and the Groq models. */
  datatype Catalog = Catalog(ollama: seq<ModelInfo>, groq: seq<ModelInfo>)

  const EmptyCatalog: Catalog := Catalog([], [])

  /** `models.filter((model) => model.provider === provider)`. */
  function OfProvider(models: seq<ModelInfo>, provider: string): (r: seq<ModelInfo>)
    ensures |r| <= |models|
    ensures forall k :: 0 <= k < |r| ==> r[k].provider == provider && r[k] in models
    ensures forall m :: m in models && m.provider == provider ==> m in r
    decreases |models|
  {
    if |models| == 0 then []
    else (if models[0].provider == provider then [models[0]] else []) + OfProvider(models[1..], provider)
  }

  /** The filter keeps the input's order: filtering a concatenation
      filters each part in turn. */
  lemma {:induction false} OfProviderAppend(a: seq<ModelInfo>, b: seq<ModelInfo>, provider: string)
    ensures OfProvider(a + b, provider) == OfProvider(a, provider) + OfProvider(b, provider)
    decreases |a|
  {
    if |a| > 0 {
      assert (a + b)[1..] == a[1..] + b;
      OfProviderAppend(a[1..], b, provider);
    } else {
      assert a + b == b;
    }
  }

  /** A list of one provider's models is kept whole. */
  lemma {:induction false} OfProviderAll(models: seq<ModelInfo>, provider: string)
    requires forall k :: 0 <= k < |models| ==> models[k].provider == provider
    ensures OfProvider(models, provider) == models
    decreases |models|
  {
    if |models| > 0 {
      OfProviderAll(models[1..], provider);
    }
  }

  /** A list without any of one provider's models gives nothing. */
  lemma {:induction false} OfProviderNone(models: seq<ModelInfo>, provider: string)
    requires forall k :: 0 <= k < |models| ==> models[k].provider != provider
    ensures OfProvider(models, provider) == []
    decreases |models|
  {
    if |models| > 0 {
      OfProviderNone(models[1..], provider);
    }
  }

  /** The partition `fetchModels` makes; entries of any other provider are
      dropped. */
  function Partition(models: seq<ModelInfo>): Catalog {
    Catalog(OfProvider(models, "ollama"), OfProvider(models, "groq"))
  }

  /** Ollama entries followed by Groq entries are partitioned back into
      the two lists. */
  lemma PartitionOfTagged(a: seq<ModelInfo>, b: seq<ModelInfo>)
    requires forall k :: 0 <= k < |a| ==> a[k].provider == "ollama"
    requires forall k :: 0 <= k < |b| ==> b[k].provider == "groq"
    ensures Partition(a + b) == Catalog(a, b)
  {
    OfProviderAppend(a, b, "ollama");
    OfProviderAppend(a, b, "groq");
    OfProviderAll(a, "ollama");
    OfProviderNone(a, "groq");
    OfProviderNone(b, "ollama");
    OfProviderAll(b, "groq");
    assert a + [] == a;
    assert [] + b == b;
  }

  /** Partitioning what the `/models` endpoint returns gives back its
      Ollama part and its Groq part, each in its own order. */
  lemma PartitionOfEndpoint(ollama: OllamaListing, apiKey: Option<string>, groq: GroqListing)
    ensures Partition(OllamaPart(ollama) + GroqPart(apiKey, groq)) == Catalog(OllamaPart(ollama), GroqPart(apiKey, groq))
  {
    PartitionOfTagged(OllamaPart(ollama), GroqPart(apiKey, groq));
  }

  /** The three state slots, as a value. */
  datatype ModelsStage = ModelsStage(catalog: Catalog, isLoading: bool, error: Option<string>)

  const InitialModelsStage: ModelsStage := ModelsStage(EmptyCatalog, false, None)

  /** A completion: a delivered list replaces the whole catalog in one
      step; a failure keeps the catalog and sets the error; loading ends. */
  function CompleteModels(s: ModelsStage, outcome: Result<seq<ModelInfo>, string>): (t: ModelsStage)
    ensures !t.isLoading
    ensures outcome.Ok? ==> t.catalog == Partition(outcome.value) && t.error == s.error
    ensures outcome.Err? ==> t.catalog == s.catalog && t.error == Some(outcome.error)
  {
    match outcome
    case Ok(models) => ModelsStage(Partition(models), false, s.error)
    case Err(message) => ModelsStage(s.catalog, false, Some(message))
  }

  class Models {
    var catalog: Catalog
    var isLoading: bool
    var error: Option<string>

    function Stage(): ModelsStage
      reads this
    {
      ModelsStage(catalog, isLoading, error)
    }

    /** The initial state: empty lists for both providers. */
    constructor()
      ensures Stage() == InitialModelsStage
    {
      catalog := EmptyCatalog;
      isLoading := false;
      error := None;
    }

    /** The start of `fetchModels`: loading, no error, catalog kept. */
    method Start()
      modifies this
      ensures Stage() == ModelsStage(old(catalog), true, None)
    {
      isLoading := true;
      error := None;
    }

    /** The completion of `fetchModels`; it returns the new partition, or
        empty lists after a failure. */
    method Complete(outcome: Result<seq<ModelInfo>, string>) returns (r: Catalog)
      modifies this
      ensures Stage() == CompleteModels(old(Stage()), outcome)
      ensures outcome.Ok? ==> r == Partition(outcome.value)
      ensures outcome.Err? ==> r == EmptyCatalog
    {
      match outcome {
        case Ok(models) =>
          var ollama := OfProvider(models, "ollama");
          var groq := OfProvider(models, "groq");
          catalog := Catalog(ollama, groq);
          r := Catalog(ollama, groq);
        case Err(message) =>
          error := Some(message);
          r := EmptyCatalog;
      }
      isLoading := false;
    }

    /** One call of `fetchModels` with nothing overlapping it. */
    method FetchModels(outcome: Result<seq<ModelInfo>, string>) returns (r: Catalog)
      modifies this
      ensures Stage() == CompleteModels(ModelsStage(old(catalog), true, None), outcome)
      ensures outcome.Ok? ==> r == Partition(outcome.value)
      ensures outcome.Err? ==> r == EmptyCatalog
    {
      Start();
      r := Complete(outcome);
    }
  }
}
