/** `ModelSelector`: the models offered for the chosen provider, the
    default it pushes to its parent when nothing is selected, and the value
    the drop-down shows. The selection itself lives in the parent; the
    selector only reports the value to set. */
module ModelSelector {
  import opened Common
  import opened ModelsRouter
  import opened ModelsHook

  /** `provider && models[provider] ? models[provider] : []`: the catalog's
      list for a provider it has, and nothing for a missing or unknown one. */
  function Available(provider: Option<string>, catalog: Catalog): (r: seq<ModelInfo>)
    ensures !Truthy(provider) ==> r == []
    ensures Truthy(provider) && provider.value == "ollama" ==> r == catalog.ollama
    ensures Truthy(provider) && provider.value == "groq" ==> r == catalog.groq
    ensures Truthy(provider) && provider.value != "ollama" && provider.value != "groq" ==> r == []
  {
    if !Truthy(provider) then []
    else if provider.value == "ollama" then catalog.ollama
    else if provider.value == "groq" then catalog.groq
    else []
  }

  /** The default the second effect pushes: the first offered model, and
      only when there is one and nothing is selected. */
  function DefaultChoice(available: seq<ModelInfo>, selected: Option<string>): (c: Option<string>)
    ensures c.Some? <==> |available| > 0 && !Truthy(selected)
    ensures c.Some? ==> c.value == available[0].id
  {
    if |available| > 0 && !Truthy(selected) then Some(available[0].id) else None
  }

  /** `selectedModel || availableModels[0]?.id || ""`: the selection when
      it is truthy, else the first offered id, else nothing. An empty first
      id falls through to `""`, which is the same string. */
  function Shown(selected: Option<string>, available: seq<ModelInfo>): (s: string)
    ensures Truthy(selected) ==> s == selected.value
    ensures !Truthy(selected) && |available| > 0 ==> s == available[0].id
    ensures !Truthy(selected) && |available| == 0 ==> s == ""
  {
    if Truthy(selected) then selected.value
    else if |available| > 0 && available[0].id != "" then available[0].id
    else ""
  }

  /** A selection is never replaced, even one the current provider does
      not offer. */
  lemma SelectionIsKept(available: seq<ModelInfo>, selected: Option<string>)
    requires Truthy(selected)
    ensures DefaultChoice(available, selected).None?
    ensures Shown(selected, available) == selected.value
  {
  }

  /** Pushing the default does not change what the drop-down shows, and
      after it the effect has nothing more to push. */
  lemma DefaultIsWhatWasShown(available: seq<ModelInfo>, selected: Option<string>)
    requires DefaultChoice(available, selected).Some?
    ensures var next := DefaultChoice(available, selected);
      && Shown(next, available) == Shown(selected, available)
      && (Truthy(next) ==> DefaultChoice(available, next).None?)
  {
  }

  /** A choice the user makes becomes the selection as it is, and the
      default effect leaves it alone. */
  lemma UserChoiceIsForwarded(available: seq<ModelInfo>, choice: string)
    requires choice != ""
    ensures DefaultChoice(available, Some(choice)).None? && Shown(Some(choice), available) == choice
  {
  }

  class ModelSelector {
    var availableModels: seq<ModelInfo>

    /** No model is offered before the first effect runs. */
    constructor()
      ensures availableModels == []
    {
      availableModels := [];
    }

    /** The first effect, run when the provider or the catalog changes. */
    method SyncAvailable(provider: Option<string>, catalog: Catalog)
      modifies this
      ensures availableModels == Available(provider, catalog)
    {
      if Truthy(provider) && provider.value == "ollama" {
        availableModels := catalog.ollama;
      } else if Truthy(provider) && provider.value == "groq" {
        availableModels := catalog.groq;
      } else {
        availableModels := [];
      }
    }

    /** The second effect: the value it passes to `onModelChange`, if any. */
    method PushDefault(selected: Option<string>) returns (change: Option<string>)
      ensures change == DefaultChoice(availableModels, selected)
    {
      change := None;
      if |availableModels| > 0 && !Truthy(selected) {
        change := Some(availableModels[0].id);
      }
    }
  }
}
