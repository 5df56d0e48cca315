/**
 * The locale state holder of the localized site: one language value kept in
 * React state, and the browser's local storage entry "language" that every
 * change writes and that the mount effect reads back.
 */
module LanguageContext {
  import opened Wrappers

  /** The local-storage key under which the provider persists its choice. */
  const LanguageKey := "language"

  const English := "en"
  const Thai := "th"

  /** The message `useLanguage` throws outside a provider. */
  const MissingProviderError := "useLanguage must be used within a LanguageProvider"

  /**
   * The two values of the source's `Language` type. The provider's state is a
   * plain string, because the stored value is cast to `Language` unchecked.
   */
  predicate IsSupported(language: string)
  {
    language == English || language == Thai
  }

  /** What `getItem` returns: the stored value, or `null` when the key is absent. */
  function Lookup(storage: map<string, string>, key: string): (r: Option<string>)
    ensures r.Some? <==> key in storage
    ensures r.Some? ==> r.value == storage[key]
  {
    if key in storage then Some(storage[key]) else None
  }

  /** The JavaScript truthiness test `if (savedLang)`: not null and not empty. */
  predicate IsTruthy(saved: Option<string>)
  {
    saved.Some? && saved.value != ""
  }

  /** The language `toggleLanguage` switches to. */
  function Toggled(language: string): (r: string)
    ensures IsSupported(r)
    ensures r == Thai <==> language == English
  {
    if language == English then Thai else English
  }

  /** The language the mount effect leaves, given the language before it and what storage returned. */
  function AfterLoad(language: string, saved: Option<string>): (r: string)
    ensures IsTruthy(saved) ==> r == saved.value
    ensures !IsTruthy(saved) ==> r == language
  {
    if IsTruthy(saved) then saved.value else language
  }

  /** The provider's in-memory language together with the whole of local storage. */
  datatype LocaleState = LocaleState(language: string, storage: map<string, string>)

  /** The stored "language" entry agrees with the in-memory language. */
  predicate Persisted(s: LocaleState)
  {
    LanguageKey in s.storage && s.storage[LanguageKey] == s.language
  }

  /** The state after the mount effect: storage is only read, never written. */
  function Loaded(s: LocaleState): (r: LocaleState)
    ensures r.storage == s.storage
    ensures LanguageKey in s.storage && s.storage[LanguageKey] != "" ==> r.language == s.storage[LanguageKey] && Persisted(r)
    ensures LanguageKey !in s.storage || s.storage[LanguageKey] == "" ==> r == s
  {
    s.(language := AfterLoad(s.language, Lookup(s.storage, LanguageKey)))
  }

  /** The state after `setLanguage(language)`. */
  function AfterSet(s: LocaleState, language: string): (r: LocaleState)
    ensures r.language == language && Persisted(r)
    ensures r.storage - {LanguageKey} == s.storage - {LanguageKey}
    ensures r.storage.Keys == s.storage.Keys + {LanguageKey}
  {
    LocaleState(language, s.storage[LanguageKey := language])
  }

  /** The state after `toggleLanguage()`. */
  function AfterToggle(s: LocaleState): (r: LocaleState)
    ensures IsSupported(r.language) && Persisted(r)
    ensures r.language == Thai <==> s.language == English
    ensures r.storage - {LanguageKey} == s.storage - {LanguageKey}
  {
    AfterSet(s, Toggled(s.language))
  }

  /** The browser's local storage: string keys to string values, shared by every session. */
  class BrowserStorage {
    var entries: map<string, string>

    constructor (entries: map<string, string>)
      ensures this.entries == entries
    {
      this.entries := entries;
    }

    method GetItem(key: string) returns (value: Option<string>)
      ensures value.Some? <==> key in entries
      ensures value.Some? ==> value.value == entries[key]
    {
      value := Lookup(entries, key);
    }

    method SetItem(key: string, value: string)
      modifies this
      ensures entries == old(entries)[key := value]
    {
      entries := entries[key := value];
    }
  }

  /** `LanguageProvider`: React's `language` state over the shared local storage. */
  class LanguageProvider {
    var language: string
    const storage: BrowserStorage

    function State(): LocaleState
      reads this, storage
    {
      LocaleState(language, storage.entries)
    }

    /** The first render: `useState("en")`, before any effect has run. */
    constructor (storage: BrowserStorage)
      ensures this.storage == storage
      ensures language == English
    {
      language := English;
      this.storage := storage;
    }

    /** The mount effect: a truthy stored value replaces the language verbatim. */
    method LoadSavedLanguage()
      modifies this
      ensures State() == Loaded(old(State()))
    {
      var saved := storage.GetItem(LanguageKey);
      language := AfterLoad(language, saved);
    }

    method ToggleLanguage()
      modifies this, storage
      ensures State() == AfterToggle(old(State()))
    {
      var newLang := Toggled(language);
      language := newLang;
      storage.SetItem(LanguageKey, newLang);
    }

    /** `handleSetLanguage`, exposed to consumers as `setLanguage`. */
    method SetLanguage(lang: string)
      modifies this, storage
      ensures State() == AfterSet(old(State()), lang)
    {
      language := lang;
      storage.SetItem(LanguageKey, lang);
    }
  }

  /** `useLanguage`: the nearest provider's value, or the error thrown when there is none. */
  function UseLanguage(context: Option<LanguageProvider>): (r: Result<LanguageProvider, string>)
    ensures r.Success? <==> context.Some?
    ensures r.Success? ==> r.value == context.value
    ensures r.Failure? ==> r.error == MissingProviderError
  {
    match context
    case None => Failure(MissingProviderError)
    case Some(provider) => Success(provider)
  }

  /** Toggling twice from a supported language restores it, and leaves it persisted. */
  lemma ToggleTwice(s: LocaleState)
    requires IsSupported(s.language)
    ensures AfterToggle(AfterToggle(s)) == AfterSet(s, s.language)
  {
    assert s.storage[LanguageKey := Toggled(s.language)][LanguageKey := s.language]
        == s.storage[LanguageKey := s.language];
  }

  /** Setting the same language twice is the same as setting it once. */
  lemma SetIdempotent(s: LocaleState, language: string)
    ensures AfterSet(AfterSet(s, language), language) == AfterSet(s, language)
  {
    assert s.storage[LanguageKey := language][LanguageKey := language]
        == s.storage[LanguageKey := language];
  }

  /** A language written by `setLanguage` is what a later session reads back, when it is non-empty. */
  lemma NextSessionReadsSetLanguage(s: LocaleState, language: string, next: string)
    requires language != ""
    ensures Loaded(LocaleState(next, AfterSet(s, language).storage)).language == language
  {
  }

  /**
   * A fresh session with nothing stored starts in English; a toggle stores
   * "th"; a new provider over the same storage then loads Thai.
   */
  method FreshSessionScenario() returns (initial: string, stored: Option<string>, next: string)
    ensures initial == English
    ensures stored == Some(Thai)
    ensures next == Thai
  {
    var storage := new BrowserStorage(map[]);
    var first := new LanguageProvider(storage);
    first.LoadSavedLanguage();
    initial := first.language;
    first.ToggleLanguage();
    stored := storage.GetItem(LanguageKey);
    var second := new LanguageProvider(storage);
    second.LoadSavedLanguage();
    next := second.language;
  }
}
