/**
 * The static explanation table: for each exception-type name a fixed-shape
 * record (plain-language explanation, one-line fix, tags, emoji, and a rich
 * media slot), with a designated fallback record for every other name.
 * The table is built once and never written; lookup is a total function.
 */
module ExceptionMapping {

  import opened Wrappers
  import PyText

  /** Optional rich-media tokens of an entry (`{"img": ..., "audio": ...}`). */
  datatype Rich = Rich(img: Option<string>, audio: Option<string>)

  /** One record of the table. */
  datatype Entry = Entry(
    simpleExplanation: string,
    fixSuggestion: string,
    tags: seq<string>,
    emoji: string,
    rich: Rich)

  /** The key of the fallback record. */
  const Unknown: string := "__unknown__"

  /** Every entry of the table carries no rich media. */
  const NoRich: Rich := Rich(None, None)

  /** `EXCEPTION_MAPPINGS`, with the entries the repository ships. */
  const ExceptionMappings: map<string, Entry> := map[
    "SyntaxError" := Entry(
      "Your code has a mistake in the structure or spelling, so Python could not understand it. This often happens if you forget brackets, colons, or put things in the wrong place. 📝",
      "Carefully check your code for typos, missing symbols, or misplaced lines. Fix the error and try again.",
      ["syntax", "typo", "code structure", "beginner"],
      "📝", NoRich),
    "IndentationError" := Entry(
      "Your code is not lined up properly. Python needs code blocks to be indented with spaces or tabs. This error shows when indentation is missing or uneven. 📏",
      "Make sure all your code blocks start with the same amount of spaces or tabs.",
      ["syntax", "indentation", "beginner"],
      "📏", NoRich),
    "TabError" := Entry(
      "You mixed spaces and tabs to indent your code. Python does not like mixing both at the same level. This can happen easily by copying code from different places. 👷",
      "Stick to only spaces or only tabs for all indentation. Fix and save your file before running.",
      ["syntax", "indentation", "spaces", "tabs"],
      "👷", NoRich),
    "NameError" := Entry(
      "Python cannot find a variable or function name you used. You probably wrote the name wrong or forgot to define it. 🔍",
      "Check your spelling and make sure the variable or function exists before using it.",
      ["variable", "function", "typo", "undefined"],
      "🔍", NoRich),
    "TypeError" := Entry(
      "You used a value with the wrong type (like trying to add a number and a string). Python does not know how to handle this combination. 🧩",
      "Make sure all values have compatible types before using them together.",
      ["type", "data", "incompatible", "operation"],
      "🧩", NoRich),
    "ValueError" := Entry(
      "A function got a value of the correct type, but the value is not valid or expected. For example: converting 'abc' to an integer fails. 🚦",
      "Double-check values you pass to functions. Make sure they are allowed.",
      ["data", "validation", "value", "conversion"],
      "🚦", NoRich),
    "KeyError" := Entry(
      "You tried to get a value using a dictionary key that does not exist. Python could not find that entry in your dictionary. 🔑",
      "Check if the key is correct, or use dict.get() to avoid this error.",
      ["dictionary", "data", "lookup", "key"],
      "🔑", NoRich),
    "IndexError" := Entry(
      "You tried to access an item in a list or sequence by index, but that position does not exist. Indexes go from 0 to length-1. 📦",
      "Make sure the index is within the correct range for your data.",
      ["list", "array", "data", "index", "out of range"],
      "📦", NoRich),
    "ZeroDivisionError" := Entry(
      ZeroDivisionExplanation,
      "Check your code to make sure the denominator is never zero before dividing.",
      ["math", "division", "arithmetic", "zero"],
      "🚫", NoRich),
    "AttributeError" := Entry(
      "You tried to use a function or property on a value, but that value does not have it. Maybe you used the wrong type or a spelling mistake. 🏷️",
      "Check the object's type and spelling. Use dir(object) to view valid attributes.",
      ["attribute", "object", "method", "property", "typo"],
      "🏷️", NoRich),
    "FileNotFoundError" := Entry(
      "Python could not find the file you tried to open. It may not exist, or you wrote the name or path incorrectly. 📂",
      "Check the filename and path. Make sure the file exists where you expect it.",
      ["file", "io", "filesystem", "path"],
      "📂", NoRich),
    "ModuleNotFoundError" := Entry(
      "Python could not find a module you tried to import. This means you may have forgotten to install it, or wrote its name wrongly. 📦",
      "Double-check the module name and install if needed (pip install).",
      ["module", "import", "installation", "dependency"],
      "📦", NoRich),
    "ImportError" := Entry(
      "Python faced a problem importing something. You may have misspelled a name, or the module does not have what you want. 🔗",
      "Check all your import statements and make sure the module or symbol exists.",
      ["import", "module", "symbol", "dependency"],
      "🔗", NoRich),
    "Exception" := Entry(
      "An unexpected problem happened in your code. This is the most general error. 🛠",
      "Check your code logic, inputs, and see above for more details about the error.",
      ["exception", "error", "general"],
      "🛠", NoRich),
    "BaseException" := Entry(
      "Python raised a very general error that is the base of all other exceptions. Usually, you get a more specific error above. 🌎",
      "Try to find the specific error type raised in your code for a more detailed explanation.",
      ["base", "exception", "general"],
      "🌎", NoRich),
    Unknown := Entry(
      "An unknown or uncommon error occurred. We could not match it with a standard error. 🧐",
      "Read the full error message to know what's wrong, or search online for help.",
      ["unknown", "unmatched", "edge-case"],
      "🧐", NoRich)
  ]

  /**
   * An entry is usable for display: at least one tag, and an explanation and
   * a fix suggestion of more than ten characters each.
   */
  predicate WellFormedEntry(e: Entry) {
    |e.tags| > 0 && |e.simpleExplanation| > 10 && |e.fixSuggestion| > 10 && e.emoji != ""
  }

  /** The fallback record, marked as unknown. */
  function Fallback(): (e: Entry)
    ensures "unknown" in e.tags
    ensures WellFormedEntry(e)
  {
    ExceptionMappings[Unknown]
  }

  /** `get_exception_mapping`: the entry for `errorType`, or the fallback record. */
  function GetExceptionMapping(errorType: string): (e: Entry)
    ensures e in ExceptionMappings.Values && WellFormedEntry(e)
    ensures errorType in ExceptionMappings ==> e == ExceptionMappings[errorType]
    ensures errorType !in ExceptionMappings ==> e == Fallback()
  {
    TableWellFormed();
    if errorType in ExceptionMappings then ExceptionMappings[errorType] else Fallback()
  }

  /** Every record of the table is well formed. */
  lemma TableWellFormed()
    ensures forall k :: k in ExceptionMappings ==> WellFormedEntry(ExceptionMappings[k])
  {
  }

  /** The fallback key is itself in the table, so the fallback access never fails. */
  lemma FallbackIsKey()
    ensures Unknown in ExceptionMappings
    ensures GetExceptionMapping(Unknown) == Fallback()
  {
  }

  /**
   * The fallback record is returned exactly for names outside the table (and
   * for the fallback key itself): no known exception type shares it.
   */
  lemma FallbackOnlyForUnmatched(errorType: string)
    ensures GetExceptionMapping(errorType) == Fallback() <==> errorType !in ExceptionMappings || errorType == Unknown
  {
    if errorType in ExceptionMappings && errorType != Unknown {
      assert "unknown" !in ExceptionMappings[errorType].tags;
    }
  }

  /** The division-by-zero entry speaks of zero and is tagged as arithmetic. */
  lemma ZeroDivisionEntry()
    ensures "ZeroDivisionError" in ExceptionMappings
    ensures PyText.Contains(GetExceptionMapping("ZeroDivisionError").simpleExplanation, "zero")
    ensures "arithmetic" in GetExceptionMapping("ZeroDivisionError").tags
  {
    var e := ExceptionMappings["ZeroDivisionError"];
    assert e.simpleExplanation == ZeroDivisionExplanation;
    ExplanationSpeaksOfZero();
  }

  /** The explanation text of the division-by-zero entry. */
  const ZeroDivisionExplanation: string :=
    "You tried to divide by zero. This is not allowed in mathematics or Python. 🚫"

  /** The word "zero" starts at index 23, in the opening sentence. */
  lemma ExplanationSpeaksOfZero()
    ensures PyText.Contains(ZeroDivisionExplanation, "zero")
  {
    var x := ZeroDivisionExplanation;
    assert x[..50] == "You tried to divide by zero. This is not allowed i";
    var opening := x[..50][..28];
    assert opening == "You tried to divide by zero.";
    assert x[23..27] == opening[23..27] == "zero";
    assert PyText.OccursAt(x, "zero", 23);
  }
}
