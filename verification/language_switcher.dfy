/** The language button (components/LanguageSwitcher.tsx): flips between English and Arabic. */
module LanguageSwitcher {
  import I18nContext

  const ToArabicLabel := "Switch to Arabic"
  const ToEnglishLabel := "التبديل إلى الإنجليزية"

  /** The language the button switches to: Arabic from English, English from anything else. */
  function NextLanguage(current: string): (r: string)
    ensures r == "en" || r == "ar"
    ensures r == "ar" <==> current == "en"
  {
    if current == "en" then "ar" else "en"
  }

  /** The button's caption. */
  function SwitchLabel(current: string): (r: string)
    ensures r == ToArabicLabel <==> current == "en"
  {
    if current == "en" then ToArabicLabel else ToEnglishLabel
  }

  /** Starting from English or Arabic, two presses return to the start; from any other language they end in Arabic. */
  lemma ToggleTwice(current: string)
    ensures current == "en" || current == "ar" ==> NextLanguage(NextLanguage(current)) == current
    ensures current != "en" && current != "ar" ==> NextLanguage(NextLanguage(current)) == "ar"
  {
  }

  /** `toggleLanguage`: changes to the next language, which sets right-to-left exactly when leaving English. */
  method ToggleLanguage(p: I18nContext.I18nProvider)
    modifies p
    ensures p.currentLang == NextLanguage(old(p.currentLang)) && p.libraryLang == p.currentLang
    ensures p.forcedRtl <==> old(p.currentLang) == "en"
    ensures p.store == old(p.store)[I18nContext.StorageKey := p.currentLang]
  {
    p.ChangeLanguage(NextLanguage(p.currentLang));
  }
}
