/** The settings store of context/SettingsContext.tsx: four settings held
    in state and mirrored to localStorage under fixed keys. `storage` is the
    part of localStorage this store reads and writes. */
module Settings {
  import opened Wrappers

  const OpenRouterKeyName: string := "techwiser_openrouter_key"
  const GeminiKeyName: string := "techwiser_gemini_key"
  const ModelKeyName: string := "techwiser_model"
  const UseCustomGeminiKeyName: string := "techwiser_use_custom_gemini"

  const DefaultModel: string := "gemini-3-flash-preview"

  datatype SettingsState = SettingsState(
    openRouterKey: string,
    geminiKey: string,
    selectedModel: string,
    useCustomGemini: bool)

  /** The initial state of the provider. */
  const Defaults: SettingsState := SettingsState("", "", DefaultModel, false)

  /** The four storage keys are pairwise distinct, so no setter can clobber
      another setting's entry. */
  lemma StorageKeysDistinct()
    ensures |{OpenRouterKeyName, GeminiKeyName, ModelKeyName, UseCustomGeminiKeyName}| == 4
  {
  }

  /** `String(b)`. */
  function BoolText(b: bool): string {
    if b then "true" else "false"
  }

  function Stored(storage: map<string, string>, key: string): Option<string> {
    if key in storage then Some(storage[key]) else None
  }

  /** The load effect applied to state `s`: a stored entry overrides its
      field only when it is present and non-empty; the flag reads as true
      exactly when its entry is the text "true". */
  function Loaded(storage: map<string, string>, s: SettingsState): (r: SettingsState)
    ensures Truthy(Stored(storage, OpenRouterKeyName)) ==> r.openRouterKey == storage[OpenRouterKeyName]
    ensures !Truthy(Stored(storage, OpenRouterKeyName)) ==> r.openRouterKey == s.openRouterKey
    ensures Truthy(Stored(storage, GeminiKeyName)) ==> r.geminiKey == storage[GeminiKeyName]
    ensures !Truthy(Stored(storage, GeminiKeyName)) ==> r.geminiKey == s.geminiKey
    ensures Truthy(Stored(storage, ModelKeyName)) ==> r.selectedModel == storage[ModelKeyName]
    ensures !Truthy(Stored(storage, ModelKeyName)) ==> r.selectedModel == s.selectedModel
    ensures Truthy(Stored(storage, UseCustomGeminiKeyName)) ==> r.useCustomGemini == (storage[UseCustomGeminiKeyName] == "true")
    ensures !Truthy(Stored(storage, UseCustomGeminiKeyName)) ==> r.useCustomGemini == s.useCustomGemini
  {
    SettingsState(
      OrElse(Stored(storage, OpenRouterKeyName), s.openRouterKey),
      OrElse(Stored(storage, GeminiKeyName), s.geminiKey),
      OrElse(Stored(storage, ModelKeyName), s.selectedModel),
      if Truthy(Stored(storage, UseCustomGeminiKeyName))
      then storage[UseCustomGeminiKeyName] == "true"
      else s.useCustomGemini)
  }

  /** A stored flag survives a reload: writing String(b) and reading it back
      with `=== 'true'` gives b. */
  lemma UseCustomGeminiRoundTrip(storage: map<string, string>, b: bool)
    ensures Loaded(storage[UseCustomGeminiKeyName := BoolText(b)], Defaults).useCustomGemini == b
  {
  }

  /** A stored key survives a reload, the empty key included (it leaves the
      default, which is empty too). */
  lemma KeysRoundTrip(storage: map<string, string>, k: string)
    ensures Loaded(storage[OpenRouterKeyName := k], Defaults).openRouterKey == k
    ensures Loaded(storage[GeminiKeyName := k], Defaults).geminiKey == k
  {
  }

  /** A stored model survives a reload unless it is empty: an empty entry
      leaves the default model. */
  lemma ModelRoundTrip(storage: map<string, string>, m: string)
    ensures Loaded(storage[ModelKeyName := m], Defaults).selectedModel == if m == "" then DefaultModel else m
  {
  }

  /** `SettingsProvider`: the state fields and the storage it mirrors them to. */
  class SettingsStore {
    var openRouterKey: string
    var geminiKey: string
    var selectedModel: string
    var useCustomGemini: bool
    var storage: map<string, string>

    function State(): SettingsState
      reads this
    {
      SettingsState(openRouterKey, geminiKey, selectedModel, useCustomGemini)
    }

    /** The state is what a reload from the storage would give. */
    predicate InSync()
      reads this
    {
      State() == Loaded(storage, Defaults)
    }

    constructor (storage: map<string, string>)
      ensures State() == Defaults && this.storage == storage
    {
      openRouterKey := "";
      geminiKey := "";
      selectedModel := DefaultModel;
      useCustomGemini := false;
      this.storage := storage;
    }

    /** The load effect run on mount. */
    method Load()
      modifies this
      ensures State() == Loaded(storage, old(State())) && storage == old(storage)
      ensures old(State()) == Defaults ==> InSync()
    {
      var s := Loaded(storage, State());
      openRouterKey, geminiKey, selectedModel, useCustomGemini :=
        s.openRouterKey, s.geminiKey, s.selectedModel, s.useCustomGemini;
    }

    method UpdateOpenRouterKey(key: string)
      modifies this
      ensures State() == old(State()).(openRouterKey := key)
      ensures storage == old(storage)[OpenRouterKeyName := key]
      ensures old(InSync()) ==> InSync()
    {
      openRouterKey := key;
      storage := storage[OpenRouterKeyName := key];
    }

    method UpdateGeminiKey(key: string)
      modifies this
      ensures State() == old(State()).(geminiKey := key)
      ensures storage == old(storage)[GeminiKeyName := key]
      ensures old(InSync()) ==> InSync()
    {
      geminiKey := key;
      storage := storage[GeminiKeyName := key];
    }

    method UpdateSelectedModel(model: string)
      modifies this
      ensures State() == old(State()).(selectedModel := model)
      ensures storage == old(storage)[ModelKeyName := model]
      ensures old(InSync()) && model != "" ==> InSync()
    {
      selectedModel := model;
      storage := storage[ModelKeyName := model];
    }

    method UpdateUseCustomGemini(use: bool)
      modifies this
      ensures State() == old(State()).(useCustomGemini := use)
      ensures storage == old(storage)[UseCustomGeminiKeyName := BoolText(use)]
      ensures old(InSync()) ==> InSync()
    {
      useCustomGemini := use;
      storage := storage[UseCustomGeminiKeyName := BoolText(use)];
    }
  }
}
