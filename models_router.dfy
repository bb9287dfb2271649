/** The `/models` endpoint of the backend: the models Ollama lists, then the
    models Groq lists, each without speech models (an id containing
    "whisper" or "tts", in any case), and a fixed default model for a
    provider whose listing could not be had.

    What the two listings returned is an input: the ids Ollama reported or
    its failure, and Groq's status and ids or its failure. */
module ModelsRouter {
  import opened Common
  import opened Strings
  import Settings

  /** One entry of the response: a model id and the provider it belongs to.
      The free-form details are not modelled. */
  datatype ModelInfo = ModelInfo(id: string, provider: string)

  /** What `ollama.list` gave: the model ids in its order, or an exception. */
  datatype OllamaListing = OllamaModels(ids: seq<string>) | OllamaUnreachable

  /** What the Groq models request gave: the HTTP status and the ids in the
      body (read only when the status is 200), or an exception. */
  datatype GroqListing = GroqModels(status: int, ids: seq<string>) | GroqUnreachable

  /** An id that is not a speech model: its lower-cased form contains
      neither "whisper" nor "tts". */
  predicate Usable(id: string) {
    !Contains(Lower(id), "whisper") && !Contains(Lower(id), "tts")
  }

  /** The comprehension over a listing: the usable ids, tagged with the
      provider, in the listing's order. */
  function Listed(ids: seq<string>, provider: string): (r: seq<ModelInfo>)
    ensures |r| <= |ids|
    ensures forall k :: 0 <= k < |r| ==> r[k].provider == provider && Usable(r[k].id) && r[k].id in ids
    ensures forall id :: id in ids && Usable(id) ==> ModelInfo(id, provider) in r
    decreases |ids|
  {
    if |ids| == 0 then []
    else (if Usable(ids[0]) then [ModelInfo(ids[0], provider)] else []) + Listed(ids[1..], provider)
  }

  /** The filter keeps each listing's order: filtering two listings one
      after the other gives the two filtered lists one after the other. */
  lemma {:induction false} ListedAppend(a: seq<string>, b: seq<string>, provider: string)
    ensures Listed(a + b, provider) == Listed(a, provider) + Listed(b, provider)
    decreases |a|
  {
    if |a| > 0 {
      assert (a + b)[1..] == a[1..] + b;
      ListedAppend(a[1..], b, provider);
    } else {
      assert a + b == b;
    }
  }

  /** A listing without speech models is kept whole and in order. */
  lemma {:induction false} ListedKeepsUsable(ids: seq<string>, provider: string)
    requires forall k :: 0 <= k < |ids| ==> Usable(ids[k])
    ensures |Listed(ids, provider)| == |ids|
    ensures forall k :: 0 <= k < |ids| ==> Listed(ids, provider)[k] == ModelInfo(ids[k], provider)
    decreases |ids|
  {
    if |ids| > 0 {
      ListedKeepsUsable(ids[1..], provider);
    }
  }

  /** The fallback entry of each provider. */
  const OllamaFallback: ModelInfo := ModelInfo(Settings.OllamaModel, "ollama")
  const GroqFallback: ModelInfo := ModelInfo(Settings.GroqModel, "groq")

  /** What the Ollama step adds: the listing, or the fallback alone. */
  function OllamaPart(ollama: OllamaListing): (r: seq<ModelInfo>)
    ensures forall k :: 0 <= k < |r| ==> r[k].provider == "ollama" && Usable(r[k].id)
    ensures ollama.OllamaUnreachable? ==> r == [OllamaFallback]
  {
    FallbacksUsable();
    match ollama
    case OllamaModels(ids) => Listed(ids, "ollama")
    case OllamaUnreachable => [OllamaFallback]
  }

  /** The Groq step falls back: no key, a failed request or a status other than 200. */
  predicate GroqFailed(apiKey: Option<string>, groq: GroqListing) {
    !Truthy(apiKey) || groq.GroqUnreachable? || groq.status != 200
  }

  /** What the Groq step adds: the listing only with a key and status 200,
      otherwise the fallback alone. */
  function GroqPart(apiKey: Option<string>, groq: GroqListing): (r: seq<ModelInfo>)
    ensures forall k :: 0 <= k < |r| ==> r[k].provider == "groq" && Usable(r[k].id)
    ensures GroqFailed(apiKey, groq) ==> r == [GroqFallback]
  {
    FallbacksUsable();
    if GroqFailed(apiKey, groq) then [GroqFallback] else Listed(groq.ids, "groq")
  }

  /** `get_models`: the list starts empty, the Ollama step extends it with
      the listed models or appends the Ollama fallback, and the Groq step
      does the same with the Groq models or the Groq fallback. It always
      returns a list: no failure of a provider reaches the caller. Every
      entry is tagged with its provider, the Ollama entries come first, no
      entry is a speech model, and a failed step adds its fallback alone. */
  method GetModels(ollama: OllamaListing, apiKey: Option<string>, groq: GroqListing) returns (models: seq<ModelInfo>)
    ensures models == OllamaPart(ollama) + GroqPart(apiKey, groq)
    ensures forall k :: 0 <= k < |models| ==> models[k].provider == "ollama" || models[k].provider == "groq"
    ensures forall i, j :: 0 <= i < j < |models| && models[j].provider == "ollama" ==> models[i].provider == "ollama"
    ensures forall k :: 0 <= k < |models| ==> Usable(models[k].id)
    ensures ollama.OllamaUnreachable? ==> models[0] == OllamaFallback && forall k :: 1 <= k < |models| ==> models[k].provider == "groq"
    ensures GroqFailed(apiKey, groq) ==> models[|models| - 1] == GroqFallback && forall k :: 0 <= k < |models| - 1 ==> models[k].provider == "ollama"
  {
    models := [];
    match ollama {
      case OllamaModels(ids) =>
        models := models + Listed(ids, "ollama");
      case OllamaUnreachable =>
        models := models + [OllamaFallback];
    }
    assert models == OllamaPart(ollama);
    if Truthy(apiKey) {
      match groq {
        case GroqModels(status, ids) =>
          if status == 200 {
            models := models + Listed(ids, "groq");
          } else {
            models := models + [GroqFallback];
          }
        case GroqUnreachable =>
          models := models + [GroqFallback];
      }
    } else {
      models := models + [GroqFallback];
    }
    Concatenated(OllamaPart(ollama), GroqPart(apiKey, groq));
  }

  /** The Ollama part followed by the Groq part: every entry is tagged with
      one of the two providers and the Ollama ones come first. */
  lemma Concatenated(a: seq<ModelInfo>, b: seq<ModelInfo>)
    requires forall k :: 0 <= k < |a| ==> a[k].provider == "ollama"
    requires forall k :: 0 <= k < |b| ==> b[k].provider == "groq"
    ensures forall k :: 0 <= k < |a + b| ==> (a + b)[k].provider == "ollama" || (a + b)[k].provider == "groq"
    ensures forall i, j :: 0 <= i < j < |a + b| && (a + b)[j].provider == "ollama" ==> (a + b)[i].provider == "ollama"
  {
  }

  /** A string with no capital letter is its own lower-cased form. */
  lemma LowerOfLowercase(s: string)
    requires forall i :: 0 <= i < |s| ==> !('A' <= s[i] <= 'Z')
    ensures Lower(s) == s
  {
  }

  /** A string none of whose characters is the first of `sub` does not contain `sub`. */
  lemma MissingFirst(s: string, sub: string)
    requires |sub| > 0 && forall i :: 0 <= i < |s| ==> s[i] != sub[0]
    ensures !Contains(s, sub)
  {
    forall i | 0 <= i <= |s| - |sub|
      ensures !OccursAt(s, sub, i)
    {
      assert s[i..i + |sub|][0] == s[i];
    }
  }

  /** A string in which the first two characters of `sub` never stand next
      to each other does not contain `sub`. */
  lemma MissingPair(s: string, sub: string)
    requires |sub| > 1 && forall i :: 0 <= i < |s| - 1 ==> !(s[i] == sub[0] && s[i + 1] == sub[1])
    ensures !Contains(s, sub)
  {
    forall i | 0 <= i <= |s| - |sub|
      ensures !OccursAt(s, sub, i)
    {
      assert s[i..i + |sub|][0] == s[i] && s[i..i + |sub|][1] == s[i + 1];
    }
  }

  /** Neither fallback is a speech model. */
  lemma FallbacksUsable()
    ensures Usable(Settings.OllamaModel) && Usable(Settings.GroqModel)
  {
    var ollama, groq := Settings.OllamaModel, Settings.GroqModel;
    LowerOfLowercase(ollama);
    LowerOfLowercase(groq);
    MissingFirst(ollama, "whisper");
    MissingFirst(ollama, "tts");
    MissingFirst(groq, "whisper");
    MissingPair(groq, "tts");
  }
}
