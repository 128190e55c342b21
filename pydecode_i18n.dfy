/** The translation stub of the `pydecode` package: two Hinglish entries. */
module PydecodeI18n {

  import Translation
  import ExceptionMapping

  /** `_supported_languages`. */
  const SupportedLanguageCodes: seq<string> := ["en", "hi-IN-hinglish"]

  /** The Hinglish rendering of the SyntaxError explanation. */
  const HinglishSyntaxExplanation: string :=
    "Aapke code me kuch galti hai structure ya spelling me, isliye Python samajh nahi paaya. Jyada tar brackets, colon ya line galat jagah likhne par hota hai. 📝"

  /** The Hinglish rendering of the NameError fix suggestion. */
  const HinglishNameFix: string :=
    "Naam sahi likha hai ya variable/function define kiya hai ya nahi, yeh dekhein."

  /**
   * `TRANSLATIONS` as the file spells it: the memo emoji U+1F4DD at the end of
   * the first key and of its value is stored as the three characters
   * U+00F0 U+0178 U+201C, its UTF-8 bytes read as Windows-1252.
   */
  const TranslationsAsWritten: map<string, map<string, string>> := map[
    "hi-IN-hinglish" := map[
      "Your code has a mistake in the structure or spelling, so Python could not understand it. This often happens if you forget brackets, colons, or put things in the wrong place. \U{F0}\U{178}\U{201C}"
        := "Aapke code me kuch galti hai structure ya spelling me, isliye Python samajh nahi paaya. Jyada tar brackets, colon ya line galat jagah likhne par hota hai. \U{F0}\U{178}\U{201C}",
      "Check your spelling and make sure the variable or function exists before using it."
        := HinglishNameFix
    ]
  ]

  /** `TRANSLATIONS` with the emoji restored, so the first key is SyntaxError's explanation. */
  const Translations: map<string, map<string, string>> := map[
    "hi-IN-hinglish" := map[
      "Your code has a mistake in the structure or spelling, so Python could not understand it. This often happens if you forget brackets, colons, or put things in the wrong place. 📝"
        := HinglishSyntaxExplanation,
      "Check your spelling and make sure the variable or function exists before using it."
        := HinglishNameFix
    ]
  ]

  /** `translate(text, lang="en")`. */
  function Translate(text: string, lang: string := "en"): (r: string)
    ensures lang == "en" || lang !in SupportedLanguageCodes ==> r == text
    ensures lang == "hi-IN-hinglish" && text in Translations[lang] ==> r == Translations[lang][text]
    ensures lang == "hi-IN-hinglish" && text !in Translations[lang] ==> r == text
  {
    Translation.Lookup(SupportedLanguageCodes, Translations, text, lang)
  }

  /** `supported_languages()`: a new list holding the supported codes. */
  method SupportedLanguages() returns (langs: array<string>)
    ensures fresh(langs)
    ensures langs[..] == SupportedLanguageCodes
  {
    langs := new string[|SupportedLanguageCodes|](i requires 0 <= i < |SupportedLanguageCodes| => SupportedLanguageCodes[i]);
  }

  /** Every language with a table is a supported language. */
  lemma TranslatedLanguagesSupported()
    ensures forall lang :: lang in Translations ==> lang in SupportedLanguageCodes
    ensures forall lang :: lang in TranslationsAsWritten ==> lang in SupportedLanguageCodes
  {
  }

  /** The NameError fix suggestion of the explanation table has a Hinglish rendering. */
  lemma NameErrorFixTranslated()
    ensures Translate(ExceptionMapping.GetExceptionMapping("NameError").fixSuggestion, "hi-IN-hinglish")
            == HinglishNameFix
  {
  }

  /** No key of the table as written ends in the memo emoji. */
  lemma AsWrittenKeysLackEmoji()
    ensures forall k :: k in TranslationsAsWritten["hi-IN-hinglish"] ==> k != "" && k[|k| - 1] != '📝'
  {
  }

  /**
   * As written, the table never translates SyntaxError's explanation from the
   * explanation table: the stored key ends in three stray characters.
   */
  lemma SyntaxExplanationUntranslatedAsWritten()
    ensures var text := ExceptionMapping.GetExceptionMapping("SyntaxError").simpleExplanation;
            Translation.Lookup(SupportedLanguageCodes, TranslationsAsWritten, text, "hi-IN-hinglish") == text
  {
    var text := ExceptionMapping.GetExceptionMapping("SyntaxError").simpleExplanation;
    assert text[|text| - 1] == '📝';
    AsWrittenKeysLackEmoji();
  }

  /** With the emoji restored, SyntaxError's explanation is translated. */
  lemma SyntaxExplanationTranslated()
    ensures Translate(ExceptionMapping.GetExceptionMapping("SyntaxError").simpleExplanation, "hi-IN-hinglish")
            == HinglishSyntaxExplanation
  {
  }
}
