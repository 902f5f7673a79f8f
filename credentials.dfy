/**
 * The settings dialog of the web client and the browser storage it writes.
 *
 * Browser local storage is a string-to-string map. The dialog keeps three
 * fields (the selected provider, the key being edited, and whether the last
 * action was a save) and reads or writes the store in its handlers.
 */
module Credentials {
  import opened Wrappers
  import opened Text

  type Store = map<string, string>

  /** The storage key under which the active provider is remembered. */
  const ProviderKey: string := "ai_provider"

  const OpenAI: string := "openai"
  const Gemini: string := "gemini"

  /** The storage key of a provider's API key, `<provider>_api_key`. */
  function KeyFor(provider: string): (k: string)
    ensures EndsWith(k, "_api_key") && StartsWith(k, provider)
    ensures |k| == |provider| + 8
  {
    provider + "_api_key"
  }

  /** The keys the dialog's "Clear All" removes. */
  const ClearedKeys: set<string> := {ProviderKey, KeyFor(OpenAI), KeyFor(Gemini)}

  /** `getItem(key) || ""`: the stored value, or the empty string when there is none. */
  function Lookup(store: Store, key: string): (v: string)
    ensures key in store ==> v == store[key]
    ensures key !in store ==> v == ""
  {
    if key in store then store[key] else ""
  }

  /** No provider's key slot is the provider slot, so saving one never overwrites the other. */
  lemma KeyForIsNotProviderKey(provider: string)
    ensures KeyFor(provider) != ProviderKey
  {
    var k := KeyFor(provider);
    assert k[|k| - 1] == 'y';
    assert ProviderKey[|ProviderKey| - 1] == 'r';
  }

  /** Distinct providers keep their keys in distinct slots. */
  lemma KeyForInjective(p: string, q: string)
    requires KeyFor(p) == KeyFor(q)
    ensures p == q
  {
    assert |p| == |q|;
    assert p == KeyFor(p)[..|p|];
    assert q == KeyFor(q)[..|q|];
  }

  /** The store after saving `apiKey` for `provider`: exactly two slots written, nothing else touched. */
  function Saved(store: Store, provider: string, apiKey: string): (s: Store)
    ensures s.Keys == store.Keys + {ProviderKey, KeyFor(provider)}
    ensures Lookup(s, ProviderKey) == provider && Lookup(s, KeyFor(provider)) == apiKey
    ensures forall k :: k in store && k != ProviderKey && k != KeyFor(provider) ==> s[k] == store[k]
  {
    KeyForIsNotProviderKey(provider);
    store[ProviderKey := provider][KeyFor(provider) := apiKey]
  }

  /** The store after "Clear All": the three removed slots gone, every other slot kept. */
  function Cleared(store: Store): (s: Store)
    ensures s.Keys == store.Keys - ClearedKeys
    ensures forall k :: k in s ==> s[k] == store[k]
  {
    store - ClearedKeys
  }

  /** Clearing twice is clearing once. */
  lemma ClearIdempotent(store: Store)
    ensures Cleared(Cleared(store)) == Cleared(store)
  {
  }

  /** After clearing, neither provider has a key and no provider is remembered. */
  lemma ClearForgetsCredentials(store: Store)
    ensures Lookup(Cleared(store), ProviderKey) == ""
    ensures Lookup(Cleared(store), KeyFor(OpenAI)) == "" && Lookup(Cleared(store), KeyFor(Gemini)) == ""
  {
  }

  /**
   * What opening the dialog restores from the store: the remembered provider
   * and that provider's key, or nothing when no provider is remembered (a
   * missing slot and an empty one are alike, both being falsy).
   */
  function Restored(store: Store): (r: Option<(string, string)>)
    ensures r.Some? <==> Lookup(store, ProviderKey) != ""
    ensures r.Some? ==> r.value.0 == store[ProviderKey] && r.value.1 == Lookup(store, KeyFor(r.value.0))
  {
    var provider := Lookup(store, ProviderKey);
    if provider != "" then Some((provider, Lookup(store, KeyFor(provider)))) else None
  }

  /** Save, then open: the same provider and key come back. */
  lemma {:induction false} SaveRestoreRoundTrip(store: Store, provider: string, apiKey: string)
    requires provider != ""
    ensures Restored(Saved(store, provider, apiKey)) == Some((provider, apiKey))
  {
    var s := Saved(store, provider, apiKey);
    assert Lookup(s, ProviderKey) == provider;
    assert Lookup(s, KeyFor(provider)) == apiKey;
  }

  /** Clear, then open: nothing is restored. */
  lemma ClearRestoresNothing(store: Store)
    ensures Restored(Cleared(store)) == None
  {
  }

  /**
   * The settings dialog. `store` is the browser's local storage as the
   * dialog sees it; the page's request code reads the same store.
   */
  class ApiKeyModal {
    var store: Store
    var provider: string
    var apiKey: string
    var saved: bool

    /** The selected provider is never empty: it starts as "gemini" and is only replaced by a non-empty one. */
    ghost predicate Valid()
      reads this
    {
      provider != ""
    }

    /** The dialog's initial state: Gemini selected, no key typed, nothing saved. */
    constructor (store: Store)
      ensures Valid()
      ensures this.store == store && provider == Gemini && apiKey == "" && !saved
    {
      this.store := store;
      provider := Gemini;
      apiKey := "";
      saved := false;
    }

    /** The load effect run when the dialog opens. */
    method Open()
      requires Valid()
      modifies this
      ensures Valid()
      ensures store == old(store) && !saved
      ensures Restored(store).Some? ==> (provider, apiKey) == Restored(store).value
      ensures Restored(store).None? ==> provider == old(provider) && apiKey == old(apiKey)
    {
      var savedProvider := Lookup(store, ProviderKey);
      var savedKey := Lookup(store, KeyFor(savedProvider));
      if savedProvider != "" {
        provider := savedProvider;
        apiKey := savedKey;
      }
      saved := false;
    }

    /** Typing into the key field. */
    method EditKey(text: string)
      requires Valid()
      modifies this`apiKey
      ensures Valid() && apiKey == text
    {
      apiKey := text;
    }

    /** One of the two provider buttons: select it and show its stored key. */
    method SelectProvider(choice: string)
      requires choice == OpenAI || choice == Gemini
      modifies this`provider, this`apiKey
      ensures Valid()
      ensures provider == choice && apiKey == Lookup(store, KeyFor(choice))
    {
      provider := choice;
      apiKey := Lookup(store, KeyFor(choice));
    }

    /** Whether the Save button is enabled: the key has some character that is not whitespace. */
    function SaveEnabled(isSpace: char -> bool): (enabled: bool)
      reads this
      ensures enabled <==> exists i :: 0 <= i < |apiKey| && !isSpace(apiKey[i])
    {
      !Blank(apiKey, isSpace)
    }

    /** "Save": remember the provider and its key, and report success. */
    method Save()
      requires Valid()
      modifies this`store, this`saved
      ensures Valid()
      ensures store == Saved(old(store), provider, apiKey) && saved
    {
      store := store[ProviderKey := provider];
      store := store[KeyFor(provider) := apiKey];
      saved := true;
    }

    /** "Clear All": forget both keys and the provider, and empty the key field; the selection stays. */
    method Clear()
      requires Valid()
      modifies this`store, this`apiKey, this`saved
      ensures Valid()
      ensures store == Cleared(old(store)) && apiKey == "" && !saved
    {
      store := store - {ProviderKey};
      store := store - {KeyFor(OpenAI)};
      store := store - {KeyFor(Gemini)};
      apiKey := "";
      saved := false;
    }
  }

  /** Save followed by a fresh opening of the dialog shows what was saved. */
  method SaveThenReopen(modal: ApiKeyModal)
    requires modal.Valid()
    modifies modal
    ensures modal.Valid()
    ensures modal.provider == old(modal.provider) && modal.apiKey == old(modal.apiKey)
    ensures modal.store == Saved(old(modal.store), old(modal.provider), old(modal.apiKey))
    ensures !modal.saved
  {
    modal.Save();
    SaveRestoreRoundTrip(old(modal.store), modal.provider, modal.apiKey);
    modal.Open();
  }

  /** Clearing twice leaves the same store and fields as clearing once. */
  method ClearTwice(modal: ApiKeyModal)
    requires modal.Valid()
    modifies modal
    ensures modal.Valid()
    ensures modal.store == Cleared(old(modal.store)) && modal.apiKey == "" && !modal.saved
    ensures modal.provider == old(modal.provider)
  {
    modal.Clear();
    modal.Clear();
    ClearIdempotent(old(modal.store));
  }
}
