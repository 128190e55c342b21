# PyExplain decoding core in Dafny

A model of the part of PyExplain / pyDecode that turns a Python traceback, or
an exception value, into a beginner-friendly record, and renders that record
as a boxed text report:

- `ExceptionMapping` (`mapping.dfy`): the static explanation table: for each
  exception-type name an explanation, a fix suggestion, tags, an emoji and an
  empty rich-media slot, plus the `"__unknown__"` fallback record. Lookup is
  total.
- `Core` (`core.dfy`): `decode_traceback`, `decode_exception` and `safe_run`.
  The text helpers of the utilities module are parameters (a `TextUtils`
  record of functions), so every property holds whatever they compute. Running
  a snippet is an executor parameter that reports completion, a fault with its
  traceback and the output printed before it, or an escaping `BaseException`.
- `Report` (`report.dfy`): `format_decoded_output`. The argument is the dict
  seen through the keys the formatter reads: absent keys, keys bound to
  `None`, Python truthiness and the empty dict are all explicit. The method
  appends the lines section by section. It is proved equal to a declarative
  definition of the line list, which the lemmas describe.
- `Translation`, `PydecodeI18n`, `PyexplainI18n`: the two translation stubs
  (`translate`, `supported_languages`) over one shared lookup.
- `PyText`: the Python string operations the formatter uses: `sep.join`,
  `s * n`, `str(int)` and the `in` test on strings.
- `Wrappers`: `Option`.

Assumptions stated in the model:

- `pyexplain/mapping.py` is not part of this model. `Core` looks types up in
  the table of `pydecode/mapping.py` instead.
- `pyexplain/_version.py` is not part of this model. The branding text is the
  one in `pydecode/_version.py:36`.
- `pyexplain/utils.py` is not part of this model. Its helpers are the fields
  of `Core.TextUtils`.

## Model

| member | source | states |
|---|---|---|
| `ExceptionMapping.GetExceptionMapping` | pydecode/mapping.py:190-195 | a known name gets its own table entry; any other name gets the fallback entry; the result is always a table value with tags, an explanation and a fix of more than 10 characters |
| `ExceptionMapping.Fallback` | pydecode/mapping.py:178-187 | the fallback entry is tagged "unknown" and is well formed |
| `ExceptionMapping.TableWellFormed` | pydecode/mapping.py:30-188 | every entry has at least one tag, an explanation and a fix longer than 10 characters, and an emoji |
| `ExceptionMapping.FallbackIsKey` | pydecode/mapping.py:179-195 | `"__unknown__"` is a key of the table, so the default access in the lookup cannot fail |
| `ExceptionMapping.FallbackOnlyForUnmatched` | pydecode/mapping.py:178-195 | the lookup returns the fallback entry if and only if the name is not in the table or is `"__unknown__"`; no known type shares it |
| `ExceptionMapping.ZeroDivisionEntry` | pydecode/mapping.py:110-118 | the ZeroDivisionError explanation contains "zero" and its tags include "arithmetic" |
| `Core.DecodeTraceback` | pyexplain/core.py:35-81 | every result is well formed, unsuccessful, and has no `output` key; branding is the constant exactly when requested; empty or non-str input gives the InvalidInput record with an empty raw traceback; otherwise the raw traceback is the sanitised text; `syntax_details` is present exactly when the sanitised text is a syntax fault |
| `Core.DecodedFields` | pyexplain/core.py:54-76 | on non-empty text, the type is the extracted one or "UnknownError"; explanation, fix, tags and emoji are copied from the table entry for the extracted type or `"__unknown__"`; the category is the classifier applied to the raw extracted value; the original message is the truncated extracted message, or "No message provided" when none was extracted; the location fields are the extractors' results |
| `Core.UnmatchedTypeUsesFallback` | pyexplain/core.py:55-65 | when no type is extracted, or the table does not know it, the record is explained by the fallback entry and tagged "unknown" |
| `Core.SyntaxDetailsOnlyAddition` | pyexplain/core.py:78-81 | adding `syntax_details` changes no other field of the assembled record, and the details are the parser's result on the sanitised text |
| `Core.ZeroDivisionScenario` | pyexplain/core.py:54-76 | a traceback whose extracted type is ZeroDivisionError decodes to that type, an explanation mentioning "zero", the "arithmetic" tag, and success false |
| `Core.DecodeException` | pyexplain/core.py:84-104 | a value that is not an exception gives the InvalidInput record; an exception gives the decode of its formatted traceback with the same branding choice |
| `Core.EmptyFormattedException` | pyexplain/core.py:103-104 | an exception whose formatted text is empty comes back as the "No traceback provided" InvalidInput record |
| `Core.SafeRun` | pyexplain/core.py:107-153 | empty or non-str code gives the InvalidInput record with `output ""`; the run succeeds exactly when the executor completes; it propagates exactly when a non-`Exception` escapes; every decoded result is well formed, unsuccessful and carries the requested branding |
| `Core.SafeRunBlankRunsNothing` | pyexplain/core.py:110-126 | the validation branch does not depend on the executor: nothing is run |
| `Core.SafeRunFaultKeepsCapturedOutput` | pyexplain/core.py:148-153 | on a fault the result is the decoded traceback with `output` overwritten by the output captured before the fault, and nothing else changed |
| `Report.PaletteFor` | pyexplain/core.py:162-169 | without colour all eight colour variables are empty; with colour bold and red are the escape codes |
| `Report.AppendHeader` | pyexplain/core.py:171-185 | appends exactly the eleven header, explanation and fix lines |
| `Report.AppendLocation` | pyexplain/core.py:187-195 | appends exactly the location block |
| `Report.AppendTechnical` | pyexplain/core.py:197-202 | appends exactly the technical block |
| `Report.AppendBranding` | pyexplain/core.py:204-207 | appends exactly the branding block |
| `Report.FormatDecodedOutput` | pyexplain/core.py:156-209 | returns the invalid-data marker for no dict or an empty dict, otherwise the newline join of header, location, technical and branding lines |
| `Report.InvalidOnlyWithoutData` | pyexplain/core.py:159-160 | the output is "Invalid decoded data" if and only if the argument is not a dict or is empty |
| `Report.ReportLineCount` | pyexplain/core.py:171-209 | the report has 11 lines, plus 3 to 5 location lines exactly when a file name or line number is truthy, plus 5 technical lines when requested, plus 3 branding lines when branding is truthy |
| `Report.FunctionLineOnlyInLocation` | pyexplain/core.py:187-195 | the function line is in the location block if and only if the block is shown and the function name is truthy |
| `Report.TitleLineWidth` | pyexplain/core.py:176-178 | without colour the title line is 71 code points plus the emoji while the type fits in 66; past 66 a negative repeat count leaves no padding, so the line is 5 plus the emoji plus the type; both box borders are 72 code points |
| `Report.PlainReportHasNoEscape` | pyexplain/core.py:162-209 | without colour the report contains no escape character unless the dict's own texts do |
| `Report.ColorReportHasEscape` | pyexplain/core.py:162-177 | with colour every report of a non-empty dict contains an escape character |
| `Report.ReportShowsErrorType` | pyexplain/core.py:172-177 | every report of a non-empty dict contains its error type, or "Error" when that key is absent |
| `Report.ToDict` | pyexplain/core.py:62-76 | a decoded record passed to the formatter is never an empty dict |
| `Report.RecordReport` | pyexplain/core.py:171-209 | a record's report is not the invalid marker; it shows the type, explanation and fix; the location block appears exactly when the file name is non-empty or the line number is non-zero; the footer appears exactly when the branding is non-empty |
| `Report.DecodedTracebackReport` | pyexplain/core.py:204-207 | the report of a decoded traceback shows the branding footer exactly when branding was requested |
| `PyText.Join` | pyexplain/core.py:201 | `sep.join`: the length is the parts' total plus one separator between each pair of neighbours, and a non-empty join starts with its first part |
| `PyText.JoinContainsPart` | pyexplain/core.py:209 | every part of a join occurs in the joined text |
| `PyText.JoinAvoidsChar` | pyexplain/core.py:209 | a character in no part and not in the separator is not in the joined text |
| `PyText.Repeat` | pyexplain/core.py:176-178 | `s * n` has `n * len(s)` code points, none when `n` is zero or negative; a one-character `s` gives a run of that character |
| `PyText.RepeatAvoidsChar` | pyexplain/core.py:205 | a character absent from `s` is absent from `s * n` |
| `PyText.DecimalString` | pyexplain/core.py:192 | `str` of an int is non-empty, starts with a minus sign exactly when the number is negative, and has a digit after that sign |
| `PyText.DecimalStringChars` | pyexplain/core.py:192 | `str` of an int holds only digits and the minus sign |
| `PyText.ContainsMiddle` | tests/test_core.py:98 | the `in` test on strings: `t in a + t + b` holds for every `a` and `b` |
| `PyText.ContainsTransitive` | tests/test_core.py:98 | the `in` test on strings: a text inside a text inside `s` is inside `s` |
| `PyText.DecimalRoundTrip` | pyexplain/core.py:191-192 | the line number printed with `str` reads back as the same integer |
| `Translation.Lookup` | pydecode/i18n.py:27-41 | English or an unsupported language returns the text; otherwise the result is the language table's value when the text is a key, and the text otherwise |
| `PydecodeI18n.Translate` | pydecode/i18n.py:27-41 | English and unsupported languages give the text back; Hinglish gives the stored value for a key and the text for anything else |
| `PydecodeI18n.SupportedLanguages` | pydecode/i18n.py:43-50 | returns a newly allocated list equal to `["en", "hi-IN-hinglish"]` |
| `PydecodeI18n.TranslatedLanguagesSupported` | pydecode/i18n.py:15-25 | every language with a translation table is in the supported list |
| `PydecodeI18n.NameErrorFixTranslated` | pydecode/i18n.py:22-23 | the NameError fix suggestion from the table translates to its Hinglish text |
| `PydecodeI18n.AsWrittenKeysLackEmoji` | pydecode/i18n.py:18-24 | no key of the table as written ends in the memo emoji |
| `PydecodeI18n.SyntaxExplanationUntranslatedAsWritten` | pydecode/i18n.py:20-21 | as written, SyntaxError's explanation is returned untranslated |
| `PydecodeI18n.SyntaxExplanationTranslated` | pydecode/i18n.py:20-21 | with the emoji restored, SyntaxError's explanation translates to its Hinglish text |
| `PyexplainI18n.Translate` | pyexplain/i18n.py:23-37 | English and unsupported languages give the text back; Hinglish gives the one stored value for its key and the text for anything else |
| `PyexplainI18n.SupportedLanguages` | pyexplain/i18n.py:39-46 | returns a newly allocated list equal to `["en", "hi-IN-hinglish"]` |
| `PyexplainI18n.TranslatedLanguagesSupported` | pyexplain/i18n.py:14-21 | every language with a translation table is in the supported list |
| `PyexplainI18n.AsWrittenKeyLacksEmoji` | pyexplain/i18n.py:16-21 | the only key of the table as written does not end in the memo emoji |
| `PyexplainI18n.SyntaxExplanationUntranslatedAsWritten` | pyexplain/i18n.py:18-19 | as written, SyntaxError's explanation is returned untranslated |
| `PyexplainI18n.SyntaxExplanationTranslated` | pyexplain/i18n.py:18-19 | with the emoji restored, SyntaxError's explanation translates to its Hinglish text |

## Left out

- The body of `safe_run` is reduced to an executor parameter. This leaves out `compile`, `exec`, the stdout redirection and its restoration, `sys.exc_info` and `traceback.format_exception`, and the seeding and mutation of the `globals_dict` / `locals_dict` namespaces. The file name reaches only the executor.
- The text helpers of `pyexplain/utils.py` are not part of this model, so nothing is proved about what they compute. That covers sanitising, extraction, the innermost-frame rule, categories, truncation and syntax-detail parsing. In particular `line_number` is not shown to be positive.
- `Core.SyntaxDetails` is an opaque type. The parser that builds it is not part of this model, and the decoders store its result without reading it.
- The explanation table holds only the 16 entries the file ships. The file says the full table is larger.
- `pydecode/core.py`, `pyexplain/mapping.py`, `pydecode/cli.py`, `pydecode/_version.py` and `pydecode/__init__.py` (including the `decode` dispatcher) are not part of this model.
- `Report.FormatDecodedOutput`: a key that normally holds text but is bound to `None` or to another type is not modelled. Python would print "None" there or raise. The decoders never produce such a dict.
- `Report.FormatDecodedOutput`: terminal rendering is not modelled. Escape codes, emoji and box characters are plain code points, and widths are counted in code points.
- `ExceptionMapping.ZeroDivisionEntry`: the test lower-cases the explanation before searching for "zero". The lemma finds the lower-case word directly, so `str.lower` is not modelled.
- `PydecodeI18n.SupportedLanguages` and `PyexplainI18n.SupportedLanguages`: the module-level list is a constant. Code that mutates the module's own list is not modelled. The copy is a freshly allocated array.
- Both translation tables are used with the emoji restored (see Findings). The tables as written are kept beside them.

## Findings

| source | as written | input that shows it | evidently intended | confidence | as-written member | corrected member |
|---|---|---|---|---|---|---|
| pydecode/i18n.py:20-21 | the Hinglish key (and its value) ends in U+00F0 U+0178 U+201C, the UTF-8 bytes of the memo emoji read as Windows-1252 | `translate(EXCEPTION_MAPPINGS["SyntaxError"]["simple_explanation"], "hi-IN-hinglish")` returns the English text unchanged | the key and value end in U+1F4DD, as the SyntaxError explanation in pydecode/mapping.py:32-35 does | medium, not executed | `PydecodeI18n.SyntaxExplanationUntranslatedAsWritten` | `PydecodeI18n.SyntaxExplanationTranslated` |
| pyexplain/i18n.py:18-19 | the same key, with the same three stray characters at the end of key and value | the same call against this module's `translate`, with the pydecode table standing in for the SyntaxError explanation | the key and value end in U+1F4DD | medium, not executed | `PyexplainI18n.SyntaxExplanationUntranslatedAsWritten` | `PyexplainI18n.SyntaxExplanationTranslated` |
