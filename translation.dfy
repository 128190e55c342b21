/**
 * The translation stub shared by both packages: a per-language table from
 * English text to translated text, consulted only for supported languages
 * other than English; any text without an entry comes back unchanged.
 */
module Translation {

  const English: string := "en"
  const Hinglish: string := "hi-IN-hinglish"

  /**
   * `translate(text, lang)` against a list of supported languages and a table
   * of per-language maps: the text itself, or the value the language's map
   * stores for it.
   */
  function Lookup(supported: seq<string>, tables: map<string, map<string, string>>,
                  text: string, lang: string): (r: string)
    ensures lang == English || lang !in supported ==> r == text
    ensures r == text || (lang in tables && text in tables[lang] && r == tables[lang][text])
    ensures lang != English && lang in supported && lang in tables && text in tables[lang]
            ==> r == tables[lang][text]
  {
    if lang == English || lang !in supported then text
    else
      var langMap := if lang in tables then tables[lang] else map[];
      if text in langMap then langMap[text] else text
  }
}
