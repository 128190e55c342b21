/** The translation stub of the `pyexplain` package: one Hinglish entry. */
module PyexplainI18n {

  import Translation
  import ExceptionMapping

  /** `_supported_languages`. */
  const SupportedLanguageCodes: seq<string> := ["en", "hi-IN-hinglish"]

  /** The (shorter) Hinglish rendering of the SyntaxError explanation. */
  const HinglishSyntaxExplanation: string :=
    "Aapke code me kuch galti hai structure ya spelling me, isliye Python samajh nahi paaya. 📝"

  /**
   * `TRANSLATIONS` as the file spells it, with the memo emoji U+1F4DD stored
   * as U+00F0 U+0178 U+201C at the end of the key and of the value.
   */
  const TranslationsAsWritten: map<string, map<string, string>> := map[
    "hi-IN-hinglish" := map[
      "Your code has a mistake in the structure or spelling, so Python could not understand it. This often happens if you forget brackets, colons, or put things in the wrong place. \U{F0}\U{178}\U{201C}"
        := "Aapke code me kuch galti hai structure ya spelling me, isliye Python samajh nahi paaya. \U{F0}\U{178}\U{201C}"
    ]
  ]

  /** `TRANSLATIONS` with the emoji restored. */
  const Translations: map<string, map<string, string>> := map[
    "hi-IN-hinglish" := map[
      "Your code has a mistake in the structure or spelling, so Python could not understand it. This often happens if you forget brackets, colons, or put things in the wrong place. 📝"
        := HinglishSyntaxExplanation
    ]
  ]

  /** `translate(text, lang="en")`. */
  function Translate(text: string, lang: string := "en"): (r: string)
    ensures lang == "en" || lang !in SupportedLanguageCodes ==> r == text
    ensures lang == "hi-IN-hinglish" && text in Translations[lang] ==> r == HinglishSyntaxExplanation
    ensures lang == "hi-IN-hinglish" && text !in Translations[lang] ==> r == text
  {
    Translation.Lookup(SupportedLanguageCodes, Translations, text, lang)
  }

  /** `supported_languages()`: a new list holding the supported codes. */
  method SupportedLanguages() returns (langs: array<string>)
    ensures fresh(langs)
    ensures langs[..] == SupportedLanguageCodes
  {
    langs := new string[|SupportedLanguageCodes|](i requires 0 <= i < |SupportedLanguageCodes| => SupportedLanguageCodes[i]);
  }

  /** Every language with a table is a supported language. */
  lemma TranslatedLanguagesSupported()
    ensures forall lang :: lang in Translations ==> lang in SupportedLanguageCodes
    ensures forall lang :: lang in TranslationsAsWritten ==> lang in SupportedLanguageCodes
  {
  }

  /** The only key of the table as written does not end in the memo emoji. */
  lemma AsWrittenKeyLacksEmoji()
    ensures forall k :: k in TranslationsAsWritten["hi-IN-hinglish"] ==> k != "" && k[|k| - 1] != '📝'
  {
  }

  /**
   * As written, the table leaves SyntaxError's explanation untranslated
   * (with the explanation table standing in for this package's own).
   */
  lemma SyntaxExplanationUntranslatedAsWritten()
    ensures var text := ExceptionMapping.GetExceptionMapping("SyntaxError").simpleExplanation;
            Translation.Lookup(SupportedLanguageCodes, TranslationsAsWritten, text, "hi-IN-hinglish") == text
  {
    var text := ExceptionMapping.GetExceptionMapping("SyntaxError").simpleExplanation;
    assert text[|text| - 1] == '📝';
    AsWrittenKeyLacksEmoji();
  }

  /** With the emoji restored, SyntaxError's explanation is translated. */
  lemma SyntaxExplanationTranslated()
    ensures Translate(ExceptionMapping.GetExceptionMapping("SyntaxError").simpleExplanation, "hi-IN-hinglish")
            == HinglishSyntaxExplanation
  {
  }
}
