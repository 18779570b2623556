/**
 * The English/Krio string tables with their lookup, and the language choice
 * kept in the browser's local storage under `safespace_language`.
 */
module Translations {

  datatype Language = En | Krio {
    /** The language's code, as the source spells it. */
    function Code(): string {
      match this
      case En => "en"
      case Krio => "krio"
    }
  }

  /** The English table. */
  const EnTable: map<string, string> :=
    map[
      "back" := "Back",
      "continue" := "Continue",
      "get_started" := "Get Started Anonymously",
      "login" := "Login",
      "logout" := "Sign Out",
      "choose_avatar" := "Choose Your Avatar",
      "create_username" := "Create Your Username",
      "tell_us_about_you" := "Tell Us About You",
      "what_help_with" := "What Would You Like Help With?",
      "create_pin" := "Create Your PIN",
      "anonymous_identity" := "This will be your anonymous identity",
      "no_real_names" := "Choose an anonymous name (no real names!)",
      "select_all_apply" := "Select all that apply",
      "pin_protection" := "4-6 digits to protect your privacy",
      "pin_stored_locally" := "Your PIN is stored locally – we never see it",
      "type_message" := "Type a message...",
      "counselor_typing" := "typing...",
      "online" := "Online",
      "offline" := "You're offline – messages will send when connected",
      "crisis_detected" := "We're Concerned About You",
      "crisis_message" := "Your safety is our top priority. Please reach out for immediate help.",
      "emergency_contacts" := "Emergency Contacts",
      "how_feeling" := "How are you feeling?",
      "feeling_before" := "Before our chat",
      "feeling_after" := "After our chat",
      "very_bad" := "Very Bad",
      "bad" := "Bad",
      "okay" := "Okay",
      "good" := "Good",
      "very_good" := "Very Good",
      "yes" := "Yes",
      "no" := "No",
      "cancel" := "Cancel",
      "save" := "Save",
      "delete" := "Delete",
      "send" := "Send"
    ]

  /** The Krio table. */
  const KrioTable: map<string, string> :=
    map[
      "back" := "Go Bak",
      "continue" := "Kontinyu",
      "get_started" := "Bigin Naw (No Nem)",
      "login" := "Log In",
      "logout" := "Komot",
      "choose_avatar" := "Pik Yu Pikchɔ",
      "create_username" := "Mek Yu Nem",
      "tell_us_about_you" := "Tɛl Wi Bɔt Yu",
      "what_help_with" := "Wetin Yu Nid Ɛp Wit?",
      "create_pin" := "Mek Yu PIN",
      "anonymous_identity" := "Dis go bi yu sikrit nem",
      "no_real_names" := "Pik wan nem we nɔ yu rial nem!",
      "select_all_apply" := "Pik ɔl we fayn fɔ yu",
      "pin_protection" := "4-6 nɔmba fɔ protɛkt yu",
      "pin_stored_locally" := "Yu PIN se na yu fon nɔmɔ – wi nɔ go si am",
      "type_message" := "Rayt mɛsej...",
      "counselor_typing" := "de rayt...",
      "online" := "De Ya",
      "offline" := "Yu nɔ gɛt intanɛt – mɛsej go sɛn we yu gɛt am",
      "crisis_detected" := "Wi Kɔnsayn Bɔt Yu",
      "crisis_message" := "Yu layf impɔtant. Duya, kɔl dis nɔmba naw naw fɔ gɛt ɛp.",
      "emergency_contacts" := "Emɛjɛnsi Nɔmba Dɛm",
      "how_feeling" := "Aw yu de fil?",
      "feeling_before" := "Bifo wi tɔk",
      "feeling_after" := "Afta wi tɔk",
      "very_bad" := "Bad Bad Wan",
      "bad" := "Bad",
      "okay" := "Okay",
      "good" := "Fayn",
      "very_good" := "Fayn Bad Wan",
      "yes" := "Yes",
      "no" := "No",
      "cancel" := "Kɛnsɛl",
      "save" := "Sev",
      "delete" := "Dilit",
      "send" := "Sɛn"
    ]

  function Table(lang: Language): map<string, string> {
    match lang
    case En => EnTable
    case Krio => KrioTable
  }

  /** `t(key, lang = 'en')`: the entry when present and non-empty, otherwise the key itself. */
  function T(key: string, lang: Language := En): (r: string)
    ensures r == key || (key in Table(lang) && r == Table(lang)[key] && r != "")
    ensures key !in Table(lang) ==> r == key
  {
    var table := Table(lang);
    if key in table && table[key] != "" then table[key] else key
  }

  /** Both tables define exactly the same keys. */
  lemma SameKeys()
    ensures EnTable.Keys == KrioTable.Keys
  {
  }

  /** Every entry is non-empty, so a key of the tables always translates to its entry. */
  lemma EntriesNonEmpty(lang: Language, key: string)
    requires key in Table(lang)
    ensures Table(lang)[key] != ""
    ensures T(key, lang) == Table(lang)[key]
  {
  }

  /** A non-empty key never translates to the empty string. */
  lemma NonEmptyKeyTranslates(key: string, lang: Language)
    requires key != ""
    ensures T(key, lang) != ""
  {
  }

  /** Without a language the lookup reads the English table. */
  lemma DefaultIsEnglish(key: string)
    ensures T(key) == T(key, En)
  {
  }

  /** A key missing from the tables is echoed back in either language. */
  lemma UnknownKeyEchoed(key: string)
    requires key !in EnTable
    ensures T(key, En) == key && T(key, Krio) == key
  {
    SameKeys();
  }

  /** Two sample entries, one per table. */
  lemma SampleEntries()
    ensures T("good", Krio) == "Fayn"
    ensures T("good") == "Good"
  {
  }

  // ------------------------------------------------------------ local storage

  /** The local-storage key of the language choice. */
  const LanguageKey: string := "safespace_language"

  /**
   * `getCurrentLanguage` over a storage snapshot: "en" without a window or
   * without a non-empty stored value, otherwise the stored text, unchecked.
   */
  function CurrentLanguageIn(hasWindow: bool, storage: map<string, string>): (lang: string)
    ensures lang != ""
    ensures !hasWindow || LanguageKey !in storage ==> lang == "en"
    ensures hasWindow && LanguageKey in storage && storage[LanguageKey] == "" ==> lang == "en"
    ensures hasWindow && LanguageKey in storage && storage[LanguageKey] != "" ==> lang == storage[LanguageKey]
  {
    if hasWindow && LanguageKey in storage && storage[LanguageKey] != "" then storage[LanguageKey] else "en"
  }

  /** `setLanguage` over a storage snapshot: writes the code when a window exists. */
  function StoreLanguage(hasWindow: bool, storage: map<string, string>, lang: Language): (s: map<string, string>)
    ensures hasWindow ==> LanguageKey in s && s[LanguageKey] == lang.Code()
    ensures forall k :: k in storage && k != LanguageKey ==> k in s && s[k] == storage[k]
    ensures !hasWindow ==> s == storage
    ensures hasWindow ==> s.Keys == storage.Keys + {LanguageKey}
  {
    if hasWindow then storage[LanguageKey := lang.Code()] else storage
  }

  /** Setting a language and reading it back gives its code when a window exists, "en" otherwise. */
  lemma SetThenGet(hasWindow: bool, storage: map<string, string>, lang: Language)
    ensures CurrentLanguageIn(hasWindow, StoreLanguage(hasWindow, storage, lang))
            == if hasWindow then lang.Code() else "en"
  {
    match lang
    case En =>
    case Krio =>
  }

  /** Any stored text comes back as the language, even one with no table. */
  lemma StoredTextUnchecked(storage: map<string, string>, text: string)
    requires text != "" && text != "en" && text != "krio"
    ensures CurrentLanguageIn(true, storage[LanguageKey := text]) == text
  {
  }

  /** The browser's local storage, as far as the language choice uses it. */
  class LocalStorage {
    var items: map<string, string>
    const hasWindow: bool

    constructor (hasWindow: bool)
      ensures this.hasWindow == hasWindow && items == map[]
    {
      this.hasWindow := hasWindow;
      items := map[];
    }

    /** `setLanguage(lang)`. */
    method SetLanguage(lang: Language)
      modifies this
      ensures items == StoreLanguage(hasWindow, old(items), lang)
    {
      if hasWindow {
        items := items[LanguageKey := lang.Code()];
      }
    }

    /** `getCurrentLanguage()`. */
    method GetCurrentLanguage() returns (lang: string)
      ensures lang == CurrentLanguageIn(hasWindow, items)
    {
      if hasWindow && LanguageKey in items && items[LanguageKey] != "" {
        lang := items[LanguageKey];
      } else {
        lang := "en";
      }
    }
  }
}
