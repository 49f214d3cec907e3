/** The translation table and current language of
    context/LanguageContext.tsx. */
module Language {

  datatype Language = En | Hi | Mr

  datatype Entry = Entry(en: string, hi: string, mr: string)

  function EntryText(e: Entry, lang: Language): string {
    match lang
    case En => e.en
    case Hi => e.hi
    case Mr => e.mr
  }

  /** `translations`. */
  const Translations: map<string, Entry> := map[
    "newProject" := Entry("New Project", "नया प्रोजेक्ट", "नवीन प्रकल्प"),
    "recentProjects" := Entry("Recent Projects", "हाल के प्रोजेक्ट", "अलीकडील प्रकल्प"),
    "workspace" := Entry("Workspace", "कार्यक्षेत्र", "काम करण्याची जागा"),
    "settings" := Entry("Settings", "सेटिंग्स", "सेटिंग्ज"),
    "publish" := Entry("Publish App", "ऐप प्रकाशित करें", "अॅप प्रकाशित करा"),
    "regenerate" := Entry("Re-generate", "फिर से बनाएँ", "पुन्हा तयार करा"),
    "copy" := Entry("Copy", "कॉपी करें", "कॉपी करा"),
    "download" := Entry("Download", "डाउनलोड करें", "डाउनलोड करा"),
    "placeholder" := Entry("Describe the website or app you want to build...",
                           "वह वेबसाइट या ऐप बताएं जिसे आप बनाना चाहते हैं...",
                           "तुम्हाला तयार करायची असलेली वेबसाइट किंवा अॅप सांगा..."),
    "aiThinking" := Entry("AI is thinking...", "AI सोच रहा है...", "AI विचार करत आहे..."),
    "storage" := Entry("Storage", "स्टोरेज", "स्टोरेज"),
    "clear" := Entry("Clear", "साफ करें", "साफ करा")
  ]

  /** `t(key)`: the entry for the language, or the English entry when that
      one is empty. */
  function T(key: string, lang: Language): (r: string)
    requires key in Translations
    ensures EntryText(Translations[key], lang) != "" ==> r == EntryText(Translations[key], lang)
    ensures EntryText(Translations[key], lang) == "" ==> r == Translations[key].en
  {
    var e := Translations[key];
    if EntryText(e, lang) != "" then EntryText(e, lang) else e.en
  }

  /** Every entry of the table is filled in for all three languages. */
  lemma TableComplete()
    ensures forall key, lang :: key in Translations ==> EntryText(Translations[key], lang) != ""
  {
    forall key, lang | key in Translations
      ensures EntryText(Translations[key], lang) != ""
    {
      assert key in {"newProject", "recentProjects", "workspace", "settings", "publish", "regenerate",
                     "copy", "download", "placeholder", "aiThinking", "storage", "clear"};
    }
  }

  /** So `t` never falls back for a key of the table: it gives the entry of
      the current language, and never the empty text. */
  lemma NeverFallsBack(key: string, lang: Language)
    requires key in Translations
    ensures T(key, lang) == EntryText(Translations[key], lang) && T(key, lang) != ""
  {
    TableComplete();
  }

  /** `LanguageProvider`: the current language. */
  class LanguageState {
    var language: Language

    constructor ()
      ensures language == En
    {
      language := En;
    }

    method SetLanguage(lang: Language)
      modifies this
      ensures language == lang
    {
      language := lang;
    }

    function Translate(key: string): (r: string)
      reads this
      requires key in Translations
      ensures r == EntryText(Translations[key], language)
    {
      NeverFallsBack(key, language);
      T(key, language)
    }
  }
}
