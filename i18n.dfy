/**
 * The translation lookup and the current language of static/js/i18n.js. The
 * translation tables are a parameter of the model; updating the page's text
 * (`applyToDOM`) is counted, not modelled.
 */
module I18n {
  import opened Wrappers

  /** The languages `setLanguage` accepts. */
  const Chinese := "zh"
  const English := "en"

  /** `translations`: language to key to text. */
  type Tables = map<string, map<string, string>>

  /** `translations[lang]?.[key]` */
  function Entry(tables: Tables, lang: string, key: string): Option<string> {
    if lang in tables && key in tables[lang] then Some(tables[lang][key]) else None
  }

  /**
   * `t(key)` with `currentLang == lang`: the entry of the current language, else
   * the English entry, else the key itself. An empty text is an entry (only a
   * missing one falls through).
   */
  function Translate(tables: Tables, lang: string, key: string): (r: string)
    ensures Entry(tables, lang, key).Some? ==> r == Entry(tables, lang, key).value
    ensures Entry(tables, lang, key).None? && Entry(tables, English, key).Some? ==> r == Entry(tables, English, key).value
    ensures Entry(tables, lang, key).None? && Entry(tables, English, key).None? ==> r == key
  {
    match Entry(tables, lang, key)
    case Some(text) => text
    case None => Entry(tables, English, key).GetOr(key)
  }

  /** The key comes back only when neither table has it, or when a table maps it to itself. */
  lemma KeyReturnedOnlyWhenMissing(tables: Tables, lang: string, key: string)
    requires Translate(tables, lang, key) != key
    ensures Entry(tables, lang, key).Some? || Entry(tables, English, key).Some?
  {
  }

  /** The language `toggleLanguage` switches to: English from Chinese, Chinese from anything else. */
  function Toggled(lang: string): (r: string)
    ensures r == Chinese || r == English
    ensures r == English <==> lang == Chinese
  {
    if lang == Chinese then English else Chinese
  }

  /** Toggling twice comes back to an accepted language, and to the same one from `zh` or `en`. */
  lemma ToggleTwiceReturns(lang: string)
    ensures lang == Chinese || lang == English ==> Toggled(Toggled(lang)) == lang
    ensures lang != Chinese && lang != English ==> Toggled(Toggled(lang)) == English
  {
  }

  /** The module-level state: `currentLang`, and what `saveLanguage` stored. */
  class Translator {
    const tables: Tables
    var currentLang: string
    ghost var stored: Option<string>
    /** How many times `applyToDOM` ran. */
    var applied: nat

    /** `currentLang = loadLanguage()`: the stored language, or `en` when nothing (or an empty string) is stored. */
    constructor(tables: Tables, saved: Option<string>)
      ensures this.tables == tables && stored == saved && applied == 0
      ensures currentLang == if saved.Some? && saved.value != "" then saved.value else English
    {
      this.tables := tables;
      stored := saved;
      applied := 0;
      currentLang := if saved.Some? && saved.value != "" then saved.value else English;
    }

    /** `t(key)` */
    function T(key: string): string
      reads this
    {
      Translate(tables, currentLang, key)
    }

    /** `getLanguage()` */
    function GetLanguage(): string
      reads this
    {
      currentLang
    }

    /**
     * `setLanguage(lang)`: ignored unless `lang` is `zh` or `en`; otherwise it
     * becomes current, is stored, and the page is updated.
     */
    method SetLanguage(lang: string)
      modifies this
      ensures lang == Chinese || lang == English ==>
        GetLanguage() == lang && stored == Some(lang) && applied == old(applied) + 1
      ensures lang != Chinese && lang != English ==>
        currentLang == old(currentLang) && stored == old(stored) && applied == old(applied)
    {
      if lang != Chinese && lang != English {
        return;
      }
      currentLang := lang;
      stored := Some(lang);
      applied := applied + 1;
    }

    /** `toggleLanguage()` */
    method ToggleLanguage()
      modifies this
      ensures currentLang == Toggled(old(currentLang)) && stored == Some(currentLang)
      ensures applied == old(applied) + 1
    {
      SetLanguage(if currentLang == Chinese then English else Chinese);
    }
  }
}
