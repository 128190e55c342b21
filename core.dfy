/**
 * Decode orchestration: how a traceback text or an exception value becomes a
 * decoded record. The text helpers (sanitising, field extraction,
 * classification, truncation, syntax-fault detection and parsing, formatting
 * an exception object) belong to the utilities module, which this model does
 * not define: they reach the decoders as the fields of a `TextUtils` value, so
 * every property below holds whatever those helpers compute.
 */
module Core {

  import opened Wrappers
  import opened ExceptionMapping
  import PyText

  /** The footer text attached when the caller opts in. */
  const Branding: string := "Powered by PyExplain ● Created by Yahya"

  /** The warning sign shown on records about unusable input. */
  const WarningEmoji: string := "⚠️"

  /** What the syntax-fault parser reports; the decoders store it without looking inside. */
  type SyntaxDetails(==)

  /** An exception value: its type name and its message. */
  datatype Fault = Fault(typeName: string, message: string)

  /** An argument the caller meant as text: a `str`, or a value of any other type (`None` included). */
  datatype TextArg = Str(text: string) | NotStr

  /** An argument the caller meant as an exception: a `BaseException` instance, or anything else. */
  datatype ExceptionArg = Raised(fault: Fault) | NotAnException

  /** The helpers of the utilities module, as the decoders call them. */
  datatype TextUtils = TextUtils(
    sanitizeTraceback: string -> string,
    extractErrorType: string -> Option<string>,
    extractErrorMessage: string -> Option<string>,
    extractLineNumber: string -> Option<int>,
    extractFileName: string -> Option<string>,
    extractFunctionName: string -> Option<string>,
    categorizeError: Option<string> -> string,
    truncateLongMessage: string -> string,
    isSyntaxError: string -> bool,
    parseSyntaxErrorDetails: string -> SyntaxDetails,
    formatExceptionFromObject: Fault -> string)

  /**
   * The decoded record (a dict in the source). `None` in the three location
   * fields and in `branding` is a key bound to `None`; `syntaxDetails` and
   * `output` are `None` when the key is absent.
   */
  datatype DecodedResult = DecodedResult(
    errorType: string,
    originalMessage: string,
    simpleExplanation: string,
    fixSuggestion: string,
    lineNumber: Option<int>,
    fileName: Option<string>,
    functionName: Option<string>,
    tags: seq<string>,
    category: string,
    emoji: string,
    branding: Option<string>,
    success: bool,
    rawTraceback: string,
    syntaxDetails: Option<SyntaxDetails>,
    output: Option<string>)

  /** Python truthiness of an optional string: present and non-empty. */
  predicate Truthy(o: Option<string>) {
    o.Some? && o.value != ""
  }

  /** Python's `o or default` on an optional string. */
  function Or(o: Option<string>, default: string): string {
    if Truthy(o) then o.value else default
  }

  /** `__branding__ if add_branding else None`. */
  function BrandingFor(addBranding: bool): Option<string> {
    if addBranding then Some(Branding) else None
  }

  /** `not text or not isinstance(text, str)`: nothing to work on. */
  predicate IsBlank(arg: TextArg) {
    arg.NotStr? || arg.text == ""
  }

  /** The record returned for unusable input; only the three texts differ between entry points. */
  function InvalidInput(message: string, explanation: string, fix: string, addBranding: bool): DecodedResult {
    DecodedResult("InvalidInput", message, explanation, fix, None, None, None, ["invalid_input"],
                  "Input Error", WarningEmoji, BrandingFor(addBranding), false, "", None, None)
  }

  /** The fixed shape shared by every InvalidInput record. */
  predicate IsInvalidInput(r: DecodedResult, addBranding: bool) {
    && r.errorType == "InvalidInput"
    && r.tags == ["invalid_input"]
    && r.category == "Input Error"
    && r.emoji == WarningEmoji
    && !r.success
    && r.rawTraceback == ""
    && r.lineNumber == None && r.fileName == None && r.functionName == None
    && r.branding == BrandingFor(addBranding)
    && r.syntaxDetails == None
  }

  /**
   * What every decoded record promises a reader: at least one tag, an
   * explanation and a fix of more than ten characters, an emoji.
   */
  predicate WellFormedResult(r: DecodedResult) {
    |r.tags| > 0 && |r.simpleExplanation| > 10 && |r.fixSuggestion| > 10 && r.emoji != ""
  }

  /** The record assembled from a sanitised, non-empty traceback, before the syntax-details key. */
  function Assemble(u: TextUtils, clean: string, addBranding: bool): DecodedResult {
    var errorType := u.extractErrorType(clean);
    var mapping := GetExceptionMapping(Or(errorType, Unknown));
    DecodedResult(
      Or(errorType, "UnknownError"),
      u.truncateLongMessage(Or(u.extractErrorMessage(clean), "No message provided")),
      mapping.simpleExplanation,
      mapping.fixSuggestion,
      u.extractLineNumber(clean),
      u.extractFileName(clean),
      u.extractFunctionName(clean),
      mapping.tags,
      u.categorizeError(errorType),
      mapping.emoji,
      BrandingFor(addBranding),
      false,
      clean,
      None,
      None)
  }

  /** `decode_traceback(traceback_text, add_branding)`. */
  function DecodeTraceback(u: TextUtils, arg: TextArg, addBranding: bool := true): (r: DecodedResult)
    ensures WellFormedResult(r)
    ensures !r.success && r.output == None
    ensures r.branding == BrandingFor(addBranding)
    ensures IsBlank(arg) ==> IsInvalidInput(r, addBranding) && r.originalMessage == "No traceback provided"
    ensures !IsBlank(arg) ==> r.rawTraceback == u.sanitizeTraceback(arg.text)
    ensures r.syntaxDetails.Some? <==> !IsBlank(arg) && u.isSyntaxError(u.sanitizeTraceback(arg.text))
  {
    if IsBlank(arg) then
      InvalidInput("No traceback provided",
                   "PyExplain needs a valid error traceback to decode.",
                   "Make sure you're passing a Python error message to decode_traceback().",
                   addBranding)
    else
      var clean := u.sanitizeTraceback(arg.text);
      var result := Assemble(u, clean, addBranding);
      if u.isSyntaxError(clean) then result.(syntaxDetails := Some(u.parseSyntaxErrorDetails(clean)))
      else result
  }

  /**
   * On a non-empty traceback the record takes its type from the extractor
   * (or "UnknownError"), its explanation, fix, tags and emoji verbatim from
   * the table entry for that type (the fallback entry when none was found),
   * its category from the classifier applied to the raw extracted value, its
   * message from the extractor (or "No message provided") through truncation,
   * and its location fields from the extractors.
   */
  lemma DecodedFields(u: TextUtils, text: string, addBranding: bool)
    requires text != ""
    ensures var r := DecodeTraceback(u, Str(text), addBranding);
            var clean := u.sanitizeTraceback(text);
            var extracted := u.extractErrorType(clean);
            var entry := GetExceptionMapping(Or(extracted, Unknown));
            && r.errorType == (if Truthy(extracted) then extracted.value else "UnknownError")
            && r.simpleExplanation == entry.simpleExplanation
            && r.fixSuggestion == entry.fixSuggestion
            && r.tags == entry.tags
            && r.emoji == entry.emoji
            && r.category == u.categorizeError(extracted)
            && r.originalMessage == u.truncateLongMessage(Or(u.extractErrorMessage(clean), "No message provided"))
            && r.lineNumber == u.extractLineNumber(clean)
            && r.fileName == u.extractFileName(clean)
            && r.functionName == u.extractFunctionName(clean)
  {
  }

  /**
   * When no type could be extracted the record is an "UnknownError" explained
   * by the fallback entry; an extracted type the table does not know keeps
   * its own name but is explained by the fallback entry too.
   */
  lemma UnmatchedTypeUsesFallback(u: TextUtils, text: string, addBranding: bool)
    requires text != ""
    requires var extracted := u.extractErrorType(u.sanitizeTraceback(text));
             !Truthy(extracted) || extracted.value !in ExceptionMappings
    ensures var r := DecodeTraceback(u, Str(text), addBranding);
            && r.simpleExplanation == Fallback().simpleExplanation
            && r.fixSuggestion == Fallback().fixSuggestion
            && "unknown" in r.tags
            && (r.errorType == "UnknownError" || r.errorType !in ExceptionMappings)
  {
  }

  /**
   * The syntax-details key is the only difference between the record of a
   * syntax-class traceback and the one assembled before it: adding it
   * changes no other field.
   */
  lemma SyntaxDetailsOnlyAddition(u: TextUtils, text: string, addBranding: bool)
    requires text != ""
    ensures var clean := u.sanitizeTraceback(text);
            var r := DecodeTraceback(u, Str(text), addBranding);
            && r.(syntaxDetails := None) == Assemble(u, clean, addBranding)
            && (u.isSyntaxError(clean) ==> r.syntaxDetails == Some(u.parseSyntaxErrorDetails(clean)))
  {
  }

  /**
   * A traceback whose last line names ZeroDivisionError is explained in terms
   * of zero and tagged as arithmetic.
   */
  lemma ZeroDivisionScenario(u: TextUtils, text: string, addBranding: bool)
    requires text != ""
    requires u.extractErrorType(u.sanitizeTraceback(text)) == Some("ZeroDivisionError")
    ensures var r := DecodeTraceback(u, Str(text), addBranding);
            && r.errorType == "ZeroDivisionError"
            && PyText.Contains(r.simpleExplanation, "zero")
            && "arithmetic" in r.tags
            && !r.success
  {
    ZeroDivisionEntry();
  }

  /** `decode_exception(exception, add_branding)`. */
  function DecodeException(u: TextUtils, arg: ExceptionArg, addBranding: bool := true): (r: DecodedResult)
    ensures WellFormedResult(r)
    ensures !r.success && r.output == None
    ensures r.branding == BrandingFor(addBranding)
    ensures arg.NotAnException? ==> IsInvalidInput(r, addBranding) && r.originalMessage == "Not a valid exception object"
    ensures arg.Raised? ==> r == DecodeTraceback(u, Str(u.formatExceptionFromObject(arg.fault)), addBranding)
  {
    match arg
    case NotAnException =>
      InvalidInput("Not a valid exception object",
                   "PyExplain needs a valid Exception object.",
                   "Use decode_exception() only with exception objects from except blocks.",
                   addBranding)
    case Raised(fault) =>
      DecodeTraceback(u, Str(u.formatExceptionFromObject(fault)), addBranding)
  }

  /**
   * An exception whose formatting yields no text is reported as missing
   * traceback text, not as an invalid exception.
   */
  lemma EmptyFormattedException(u: TextUtils, fault: Fault, addBranding: bool)
    requires u.formatExceptionFromObject(fault) == ""
    ensures var r := DecodeException(u, Raised(fault), addBranding);
            IsInvalidInput(r, addBranding) && r.originalMessage == "No traceback provided"
  {
  }

  /** What running a snippet did, as the executor reports it. */
  datatype Execution<V> =
    | Completed(output: string, result: Option<V>)  // ran to the end: captured stdout, the namespace's `result`
    | Failed(tracebackText: string, output: string) // raised an `Exception`: its formatted traceback, stdout up to the fault
    | Escaped                                       // raised a `BaseException` that is not an `Exception`

  /** What `safe_run` gives back. */
  datatype RunResult<V> =
    | Succeeded(output: string, result: Option<V>, branding: Option<string>, message: string)
    | Decoded(record: DecodedResult)
    | Propagates  // the exception leaves safe_run uncaught

  /**
   * `safe_run(code, filename, add_branding=...)`. Compiling and executing the
   * snippet, with stdout redirected, is the executor `run`, given the code
   * and the file name it is attributed to.
   */
  function SafeRun<V>(u: TextUtils, code: TextArg, filename: string := "<string>",
                      run: (string, string) -> Execution<V>, addBranding: bool := true): (r: RunResult<V>)
    ensures IsBlank(code) ==> r.Decoded? && IsInvalidInput(r.record, addBranding)
                              && r.record.originalMessage == "No code provided" && r.record.output == Some("")
    ensures r.Succeeded? <==> !IsBlank(code) && run(code.text, filename).Completed?
    ensures r.Propagates? <==> !IsBlank(code) && run(code.text, filename).Escaped?
    ensures r.Succeeded? ==> r.branding == BrandingFor(addBranding)
    ensures r.Decoded? ==> WellFormedResult(r.record) && !r.record.success && r.record.branding == BrandingFor(addBranding)
  {
    if IsBlank(code) then
      Decoded(InvalidInput("No code provided",
                           "PyExplain needs valid Python code to run.",
                           "Pass a string containing Python code to safe_run().",
                           addBranding).(output := Some("")))
    else
      match run(code.text, filename)
      case Completed(output, result) =>
        Succeeded(output, result, BrandingFor(addBranding), "Code executed successfully! ✅")
      case Failed(tracebackText, output) =>
        Decoded(DecodeTraceback(u, Str(tracebackText), addBranding).(output := Some(output)))
      case Escaped =>
        Propagates
  }

  /** The validation branch runs nothing: its result does not depend on the executor. */
  lemma SafeRunBlankRunsNothing<V>(u: TextUtils, code: TextArg, filename: string,
                                   run1: (string, string) -> Execution<V>,
                                   run2: (string, string) -> Execution<V>, addBranding: bool)
    requires IsBlank(code)
    ensures SafeRun(u, code, filename, run1, addBranding) == SafeRun(u, code, filename, run2, addBranding)
  {
  }

  /**
   * On a fault the result is the decoded traceback with its `output` key set
   * to what the snippet printed before the fault, and nothing else changed.
   */
  lemma SafeRunFaultKeepsCapturedOutput<V>(u: TextUtils, code: string, filename: string,
                                           run: (string, string) -> Execution<V>, addBranding: bool)
    requires code != "" && run(code, filename).Failed?
    ensures var r := SafeRun(u, Str(code), filename, run, addBranding);
            var decoded := DecodeTraceback(u, Str(run(code, filename).tracebackText), addBranding);
            && r.Decoded?
            && r.record.output == Some(run(code, filename).output)
            && r.record.(output := None) == decoded
  {
  }
}
