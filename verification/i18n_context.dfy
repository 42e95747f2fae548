/**
 * The language setting (context/I18nContext.tsx): the current language,
 * the translation library's language and the right-to-left layout flag,
 * loaded from and saved under the storage key "lang".
 */
module I18nContext {
  import opened Wrappers

  const StorageKey := "lang"
  const StartLanguage := "en"

  /** The only right-to-left language. */
  predicate IsRtl(lang: string) {
    lang == "ar"
  }

  /** The stored language, when one is stored and it is not empty. */
  function SavedLanguage(store: map<string, string>): (r: Option<string>)
    ensures r.Some? <==> StorageKey in store && store[StorageKey] != ""
    ensures r.Some? ==> r.value == store[StorageKey]
  {
    if StorageKey in store && store[StorageKey] != "" then Some(store[StorageKey]) else None
  }

  class I18nProvider {
    var currentLang: string
    /** The language the translation library is set to. */
    var libraryLang: string
    /** The layout direction forced on the platform. */
    var forcedRtl: bool
    var store: map<string, string>

    /** Whether the forced layout direction matches the current language. */
    predicate RtlAgrees()
      reads this
    {
      forcedRtl == IsRtl(currentLang)
    }

    /** The provider starts in English; the layout direction is the platform's until a language is applied. */
    constructor(store: map<string, string>, platformRtl: bool)
      ensures currentLang == StartLanguage && libraryLang == StartLanguage
      ensures forcedRtl == platformRtl && this.store == store
    {
      currentLang := StartLanguage;
      libraryLang := StartLanguage;
      forcedRtl := platformRtl;
      this.store := store;
    }

    /** The load effect: a non-empty saved language is applied to the state, the library and the layout direction. */
    method LoadSaved()
      modifies this`currentLang, this`libraryLang, this`forcedRtl
      ensures SavedLanguage(store).Some? ==>
        var lang := SavedLanguage(store).value;
        currentLang == lang && libraryLang == lang && forcedRtl == IsRtl(lang) && RtlAgrees()
      ensures SavedLanguage(store).None? ==>
        currentLang == old(currentLang) && libraryLang == old(libraryLang) && forcedRtl == old(forcedRtl)
    {
      var saved := SavedLanguage(store);
      if saved.Some? {
        libraryLang := saved.value;
        currentLang := saved.value;
        forcedRtl := IsRtl(saved.value);
      }
    }

    /** `changeLanguage(lng)`: applied everywhere and saved under "lang"; right-to-left exactly for Arabic. */
    method ChangeLanguage(lng: string)
      modifies this
      ensures currentLang == lng && libraryLang == lng
      ensures store == old(store)[StorageKey := lng]
      ensures forcedRtl <==> lng == "ar"
      ensures RtlAgrees()
    {
      libraryLang := lng;
      currentLang := lng;
      store := store[StorageKey := lng];
      forcedRtl := IsRtl(lng);
    }
  }

  /** A chosen language survives a restart when it is not empty. */
  method ChangeThenRestart(p: I18nProvider, lng: string, platformRtl: bool) returns (shown: string, rtl: bool)
    modifies p
    ensures lng != "" ==> shown == lng && rtl == IsRtl(lng)
    ensures lng == "" ==> shown == StartLanguage && rtl == platformRtl
  {
    p.ChangeLanguage(lng);
    var q := new I18nProvider(p.store, platformRtl);
    q.LoadSaved();
    shown, rtl := q.currentLang, q.forcedRtl;
  }
}
