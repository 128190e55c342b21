/**
 * The report formatter: a decoded record, seen as the dict the formatter
 * reads with `.get`, becomes a list of display lines joined by newlines. The
 * list is a boxed header with the explanation and the fix, then an optional
 * location block, an optional technical block and an optional branding
 * footer. Terminal escape codes, emoji and box-drawing characters are plain
 * code points here; nothing is rendered.
 */
module Report {

  import opened Wrappers
  import opened PyText
  import Core

  /** A key the formatter reads: absent, bound to `None`, or bound to a value. */
  datatype Slot<T> = Missing | Null | Value(v: T)

  /**
   * The dict handed to the formatter, through the keys it reads. Keys that
   * always hold text (or a list of text) are `None` when absent; the four keys
   * the decoders may bind to `None` are slots. `otherKeys` holds the keys the
   * formatter never reads; they matter only to the emptiness test.
   */
  datatype DecodedDict = DecodedDict(
    errorType: Option<string>,
    emoji: Option<string>,
    simpleExplanation: Option<string>,
    fixSuggestion: Option<string>,
    fileName: Slot<string>,
    lineNumber: Slot<int>,
    functionName: Slot<string>,
    category: Option<string>,
    originalMessage: Option<string>,
    tags: Option<seq<string>>,
    branding: Slot<string>,
    otherKeys: set<string>)

  /** The formatter's argument: a dict, or `None` or any other non-dict value. */
  datatype FormatArg = Dict(d: DecodedDict) | NotADict

  /** `not decoded` for a dict: it has no key at all. */
  predicate IsEmpty(d: DecodedDict) {
    && d.errorType.None? && d.emoji.None? && d.simpleExplanation.None? && d.fixSuggestion.None?
    && d.fileName.Missing? && d.lineNumber.Missing? && d.functionName.Missing?
    && d.category.None? && d.originalMessage.None? && d.tags.None?
    && d.branding.Missing? && d.otherKeys == {}
  }

  /** Truthiness of `decoded.get(key)` for a text key: bound to a non-empty string. */
  predicate TextTruthy(s: Slot<string>) {
    s.Value? && s.v != ""
  }

  /** Truthiness of `decoded.get('line_number')`: bound to a non-zero int. */
  predicate IntTruthy(s: Slot<int>) {
    s.Value? && s.v != 0
  }

  /** The eight colour variables. */
  datatype Palette = Palette(red: string, green: string, yellow: string, cyan: string,
                             magenta: string, blue: string, reset: string, bold: string)

  /** The escape character that starts every colour code. */
  const Esc: char := '\U{1B}'

  function PaletteFor(color: bool): (p: Palette)
    ensures !color ==> p == Palette("", "", "", "", "", "", "", "")
    ensures color ==> p.bold == [Esc] + "[1m" && p.red == [Esc] + "[91m"
  {
    if color then
      Palette([Esc] + "[91m", [Esc] + "[92m", [Esc] + "[93m", [Esc] + "[96m",
              [Esc] + "[95m", [Esc] + "[94m", [Esc] + "[0m", [Esc] + "[1m")
    else
      Palette("", "", "", "", "", "", "", "")
  }

  /** The fixed result for `None`, an empty dict or a non-dict. */
  const InvalidData: string := "Invalid decoded data"

  /** `decoded.get('error_type', 'Error')`. */
  function ErrorTypeOf(d: DecodedDict): string {
    d.errorType.GetOr("Error")
  }

  /** The boxed title line: the emoji and the type, padded to the box's right edge. */
  function TitleLine(d: DecodedDict, p: Palette): string {
    var errorType := ErrorTypeOf(d);
    "║  " + p.bold + p.red + d.emoji.GetOr("⚠️") + " " + errorType + p.reset
      + Repeat(" ", 68 - |errorType| - 2) + "║"
  }

  /** The eleven lines every report starts with. */
  function HeaderLines(d: DecodedDict, p: Palette): seq<string> {
    [ "",
      "╔" + Repeat("═", 70) + "╗",
      TitleLine(d, p),
      "╚" + Repeat("═", 70) + "╝",
      "",
      p.bold + p.cyan + "💡 Simple Explanation:" + p.reset,
      d.simpleExplanation.GetOr("No explanation available"),
      "",
      p.bold + p.green + "🔧 How to Fix:" + p.reset,
      d.fixSuggestion.GetOr("No suggestion available"),
      "" ]
  }

  /** Whether the location block is shown: a file name or a line number is truthy. */
  predicate HasLocation(d: DecodedDict) {
    TextTruthy(d.fileName) || IntTruthy(d.lineNumber)
  }

  function FunctionLine(name: string): string {
    "   Function: " + name
  }

  /** The location block; the function line appears only inside it. */
  function LocationLines(d: DecodedDict, p: Palette): seq<string> {
    if HasLocation(d) then
      [p.bold + p.yellow + "📍 Error Location:" + p.reset]
      + (if TextTruthy(d.fileName) then ["   File: " + d.fileName.v] else [])
      + (if IntTruthy(d.lineNumber) then ["   Line: " + DecimalString(d.lineNumber.v)] else [])
      + (if TextTruthy(d.functionName) then [FunctionLine(d.functionName.v)] else [])
      + [""]
    else []
  }

  /** The technical block, shown only on request. */
  function TechnicalLines(d: DecodedDict, p: Palette, includeTechnical: bool): seq<string> {
    if includeTechnical then
      [ p.bold + p.magenta + "🔍 Technical Details:" + p.reset,
        "   Category: " + d.category.GetOr("Unknown"),
        "   Original Message: " + d.originalMessage.GetOr("N/A"),
        "   Tags: " + Join(d.tags.GetOr([]), ", "),
        "" ]
    else []
  }

  /** The branding footer, shown only when `branding` is truthy. */
  function BrandingLines(d: DecodedDict, p: Palette): seq<string> {
    if TextTruthy(d.branding) then
      [Repeat("─", 72), p.bold + p.blue + d.branding.v + p.reset, ""]
    else []
  }

  /** The report's lines, section by section. */
  function ReportLines(d: DecodedDict, includeTechnical: bool, color: bool): seq<string> {
    var p := PaletteFor(color);
    HeaderLines(d, p) + LocationLines(d, p) + TechnicalLines(d, p, includeTechnical) + BrandingLines(d, p)
  }

  /** What `format_decoded_output` returns. */
  function ReportText(decoded: FormatArg, includeTechnical: bool, color: bool): string {
    if decoded.NotADict? || IsEmpty(decoded.d) then InvalidData
    else Join(ReportLines(decoded.d, includeTechnical, color), "\n")
  }

  /** Appends the eleven header lines. */
  method AppendHeader(lines: seq<string>, d: DecodedDict, p: Palette) returns (out: seq<string>)
    ensures out == lines + HeaderLines(d, p)
  {
    out := lines;
    out := out + [""];
    out := out + ["╔" + Repeat("═", 70) + "╗"];
    out := out + [TitleLine(d, p)];
    out := out + ["╚" + Repeat("═", 70) + "╝"];
    out := out + [""];
    out := out + [p.bold + p.cyan + "💡 Simple Explanation:" + p.reset];
    out := out + [d.simpleExplanation.GetOr("No explanation available")];
    out := out + [""];
    out := out + [p.bold + p.green + "🔧 How to Fix:" + p.reset];
    out := out + [d.fixSuggestion.GetOr("No suggestion available")];
    out := out + [""];
  }

  /** Appends the location block when a file name or a line number is truthy. */
  method AppendLocation(lines: seq<string>, d: DecodedDict, p: Palette) returns (out: seq<string>)
    ensures out == lines + LocationLines(d, p)
  {
    out := lines;
    if TextTruthy(d.fileName) || IntTruthy(d.lineNumber) {
      out := out + [p.bold + p.yellow + "📍 Error Location:" + p.reset];
      if TextTruthy(d.fileName) {
        out := out + ["   File: " + d.fileName.v];
      }
      if IntTruthy(d.lineNumber) {
        out := out + ["   Line: " + DecimalString(d.lineNumber.v)];
      }
      if TextTruthy(d.functionName) {
        out := out + [FunctionLine(d.functionName.v)];
      }
      out := out + [""];
    }
  }

  /** Appends the technical block when it is requested. */
  method AppendTechnical(lines: seq<string>, d: DecodedDict, p: Palette, includeTechnical: bool)
    returns (out: seq<string>)
    ensures out == lines + TechnicalLines(d, p, includeTechnical)
  {
    out := lines;
    if includeTechnical {
      out := out + [p.bold + p.magenta + "🔍 Technical Details:" + p.reset];
      out := out + ["   Category: " + d.category.GetOr("Unknown")];
      out := out + ["   Original Message: " + d.originalMessage.GetOr("N/A")];
      out := out + ["   Tags: " + Join(d.tags.GetOr([]), ", ")];
      out := out + [""];
    }
  }

  /** Appends the branding footer when `branding` is truthy. */
  method AppendBranding(lines: seq<string>, d: DecodedDict, p: Palette) returns (out: seq<string>)
    ensures out == lines + BrandingLines(d, p)
  {
    out := lines;
    if TextTruthy(d.branding) {
      out := out + [Repeat("─", 72)];
      out := out + [p.bold + p.blue + d.branding.v + p.reset];
      out := out + [""];
    }
  }

  /** `format_decoded_output(decoded, include_technical, color)`: appends the lines section by section, then joins them. */
  method FormatDecodedOutput(decoded: FormatArg, includeTechnical: bool := false, color: bool := false)
    returns (s: string)
    ensures s == ReportText(decoded, includeTechnical, color)
  {
    if decoded.NotADict? || IsEmpty(decoded.d) {
      return InvalidData;
    }
    var d := decoded.d;
    var p := PaletteFor(color);
    var lines: seq<string> := [];
    lines := AppendHeader(lines, d, p);
    assert lines == HeaderLines(d, p);
    lines := AppendLocation(lines, d, p);
    lines := AppendTechnical(lines, d, p, includeTechnical);
    lines := AppendBranding(lines, d, p);
    assert lines == ReportLines(d, includeTechnical, color);
    s := Join(lines, "\n");
  }

  /** A report is the invalid-data marker exactly when there was no dict or an empty one. */
  lemma InvalidOnlyWithoutData(decoded: FormatArg, includeTechnical: bool, color: bool)
    ensures ReportText(decoded, includeTechnical, color) == InvalidData
            <==> decoded.NotADict? || IsEmpty(decoded.d)
  {
    if !(decoded.NotADict? || IsEmpty(decoded.d)) {
      var lines := ReportLines(decoded.d, includeTechnical, color);
      assert lines[0] == "";
      assert Join(lines, "\n") == lines[0] + "\n" + Join(lines[1..], "\n");
      assert Join(lines, "\n")[0] == '\n' != InvalidData[0];
    }
  }

  /**
   * A report has the eleven header lines, then three to five location lines
   * when a file name or line number is truthy (none otherwise), five
   * technical lines when requested and three branding lines when `branding`
   * is truthy.
   */
  lemma ReportLineCount(d: DecodedDict, includeTechnical: bool, color: bool)
    ensures var p := PaletteFor(color);
            var location := |LocationLines(d, p)|;
            && |ReportLines(d, includeTechnical, color)|
               == 11 + location + (if includeTechnical then 5 else 0) + (if TextTruthy(d.branding) then 3 else 0)
            && (location == 0 <==> !HasLocation(d))
            && (HasLocation(d) ==> location == 2 + (if TextTruthy(d.fileName) then 1 else 0)
                                                 + (if IntTruthy(d.lineNumber) then 1 else 0)
                                                 + (if TextTruthy(d.functionName) then 1 else 0))
  {
  }

  /**
   * The location block shows a function line exactly when the block itself
   * is shown and the function name is truthy: without a file name or a line
   * number the function name is never displayed.
   */
  lemma FunctionLineOnlyInLocation(d: DecodedDict, color: bool, name: string)
    ensures FunctionLine(name) in LocationLines(d, PaletteFor(color))
            <==> HasLocation(d) && TextTruthy(d.functionName) && d.functionName.v == name
  {
    var p := PaletteFor(color);
    var f := FunctionLine(name);
    var lines := LocationLines(d, p);
    if f in lines {
      assert HasLocation(d);
      var title := p.bold + p.yellow + "📍 Error Location:" + p.reset;
      assert f[0] == ' ' && f[3] == 'F' && f[4] == 'u';
      assert f != title by {
        if color {
          assert title[0] == Esc;
        } else {
          assert title[0] == '📍';
        }
      }
      if TextTruthy(d.fileName) {
        var fileLine := "   File: " + d.fileName.v;
        assert fileLine[4] == 'i';
      }
      if IntTruthy(d.lineNumber) {
        var lineLine := "   Line: " + DecimalString(d.lineNumber.v);
        assert lineLine[3] == 'L';
      }
      assert f != "";
      assert TextTruthy(d.functionName) && FunctionLine(d.functionName.v) == f;
      assert d.functionName.v == f[13..] == name;
    }
  }

  /**
   * Without colour the title line is `len(error_type)` plus the emoji plus
   * 71 code points wide while the type fits (padding `66 - len(error_type)`
   * spaces), and has no padding at all once the type is longer than 66: a
   * negative repetition count gives the empty string. Both box borders are
   * 72 code points.
   */
  lemma TitleLineWidth(d: DecodedDict)
    ensures var p := PaletteFor(false);
            var typeLength := |ErrorTypeOf(d)|;
            var emojiLength := |d.emoji.GetOr("⚠️")|;
            && |TitleLine(d, p)| == (if typeLength <= 66 then 71 + emojiLength else 5 + emojiLength + typeLength)
            && |HeaderLines(d, p)[1]| == 72 && |HeaderLines(d, p)[3]| == 72
  {
  }

  /** No text of the dict holds an escape character. */
  predicate NoEscapeIn(d: DecodedDict) {
    && Esc !in d.errorType.GetOr("") && Esc !in d.emoji.GetOr("")
    && Esc !in d.simpleExplanation.GetOr("") && Esc !in d.fixSuggestion.GetOr("")
    && (d.fileName.Value? ==> Esc !in d.fileName.v)
    && (d.functionName.Value? ==> Esc !in d.functionName.v)
    && Esc !in d.category.GetOr("") && Esc !in d.originalMessage.GetOr("")
    && (forall i :: 0 <= i < |d.tags.GetOr([])| ==> Esc !in d.tags.GetOr([])[i])
    && (d.branding.Value? ==> Esc !in d.branding.v)
  }

  /** No line of the list holds an escape character. */
  predicate NoEscapeLines(lines: seq<string>) {
    forall i :: 0 <= i < |lines| ==> Esc !in lines[i]
  }

  /** The three box lines carry no escape character without colour. */
  lemma PlainBoxHasNoEscape(d: DecodedDict)
    requires NoEscapeIn(d)
    ensures var h := HeaderLines(d, PaletteFor(false));
            Esc !in h[1] && Esc !in h[2] && Esc !in h[3]
  {
    RepeatAvoidsChar("═", 70, Esc);
    RepeatAvoidsChar(" ", 68 - |ErrorTypeOf(d)| - 2, Esc);
  }

  /** The explanation and fix lines carry no escape character without colour. */
  lemma PlainTextsHaveNoEscape(d: DecodedDict)
    requires NoEscapeIn(d)
    ensures var h := HeaderLines(d, PaletteFor(false));
            Esc !in h[5] && Esc !in h[6] && Esc !in h[8] && Esc !in h[9]
  {
  }

  lemma PlainHeaderHasNoEscape(d: DecodedDict)
    requires NoEscapeIn(d)
    ensures NoEscapeLines(HeaderLines(d, PaletteFor(false)))
  {
    PlainBoxHasNoEscape(d);
    PlainTextsHaveNoEscape(d);
  }

  lemma PlainLocationHasNoEscape(d: DecodedDict)
    requires NoEscapeIn(d)
    ensures NoEscapeLines(LocationLines(d, PaletteFor(false)))
  {
    if d.lineNumber.Value? {
      DecimalStringChars(d.lineNumber.v, Esc);
    }
  }

  lemma PlainTechnicalHasNoEscape(d: DecodedDict, includeTechnical: bool)
    requires NoEscapeIn(d)
    ensures NoEscapeLines(TechnicalLines(d, PaletteFor(false), includeTechnical))
  {
    JoinAvoidsChar(d.tags.GetOr([]), ", ", Esc);
  }

  lemma PlainBrandingHasNoEscape(d: DecodedDict)
    requires NoEscapeIn(d)
    ensures NoEscapeLines(BrandingLines(d, PaletteFor(false)))
  {
    RepeatAvoidsChar("─", 72, Esc);
  }

  /** Without colour the report adds no escape code of its own. */
  lemma PlainReportHasNoEscape(decoded: FormatArg, includeTechnical: bool)
    requires decoded.Dict? ==> NoEscapeIn(decoded.d)
    ensures Esc !in ReportText(decoded, includeTechnical, false)
  {
    if !(decoded.NotADict? || IsEmpty(decoded.d)) {
      var d := decoded.d;
      var p := PaletteFor(false);
      PlainHeaderHasNoEscape(d);
      PlainLocationHasNoEscape(d);
      PlainTechnicalHasNoEscape(d, includeTechnical);
      PlainBrandingHasNoEscape(d);
      var lines := ReportLines(d, includeTechnical, false);
      assert lines == HeaderLines(d, p) + LocationLines(d, p) + TechnicalLines(d, p, includeTechnical) + BrandingLines(d, p);
      assert NoEscapeLines(lines);
      JoinAvoidsChar(lines, "\n", Esc);
    } else {
      assert Esc !in InvalidData;
    }
  }

  /** With colour every report of a non-empty dict carries escape codes. */
  lemma ColorReportHasEscape(d: DecodedDict, includeTechnical: bool)
    requires !IsEmpty(d)
    ensures Esc in ReportText(Dict(d), includeTechnical, true)
  {
    var p := PaletteFor(true);
    var lines := ReportLines(d, includeTechnical, true);
    var title := TitleLine(d, p);
    assert lines[2] == title by {
      assert lines == HeaderLines(d, p) + (lines[11..]);
    }
    JoinContainsPart(lines, "\n", 2);
    assert title[3] == Esc;
    ContainsChar(title, Esc);
    ContainsTransitive(Join(lines, "\n"), title, [Esc]);
    var k :| OccursAt(Join(lines, "\n"), [Esc], k);
    assert Join(lines, "\n")[k] == Esc;
  }

  lemma TitleShowsErrorType(d: DecodedDict, p: Palette)
    ensures Contains(TitleLine(d, p), ErrorTypeOf(d))
  {
    var errorType := ErrorTypeOf(d);
    var before := "║  " + p.bold + p.red + d.emoji.GetOr("⚠️") + " ";
    var after := p.reset + Repeat(" ", 68 - |errorType| - 2) + "║";
    assert TitleLine(d, p) == before + errorType + after;
    ContainsMiddle(before, errorType, after);
  }

  /** The error type (or "Error" when the key is absent) appears in every report of a non-empty dict. */
  lemma ReportShowsErrorType(d: DecodedDict, includeTechnical: bool, color: bool)
    requires !IsEmpty(d)
    ensures Contains(ReportText(Dict(d), includeTechnical, color), ErrorTypeOf(d))
  {
    var p := PaletteFor(color);
    var lines := ReportLines(d, includeTechnical, color);
    assert lines[2] == TitleLine(d, p) by {
      assert lines == HeaderLines(d, p) + (lines[11..]);
    }
    JoinContainsPart(lines, "\n", 2);
    TitleShowsErrorType(d, p);
    ContainsTransitive(Join(lines, "\n"), TitleLine(d, p), ErrorTypeOf(d));
  }

  /** A key the decoders may bind to `None`, as the formatter reads it. */
  function SlotOf<T>(o: Option<T>): Slot<T> {
    match o
    case Some(v) => Value(v)
    case None => Null
  }

  /** A decoded record as the dict the formatter receives: every key present. */
  function ToDict(r: Core.DecodedResult): (d: DecodedDict)
    ensures !IsEmpty(d)
  {
    DecodedDict(Some(r.errorType), Some(r.emoji), Some(r.simpleExplanation), Some(r.fixSuggestion),
                SlotOf(r.fileName), SlotOf(r.lineNumber), SlotOf(r.functionName),
                Some(r.category), Some(r.originalMessage), Some(r.tags), SlotOf(r.branding),
                {"success", "raw_traceback"}
                + (if r.syntaxDetails.Some? then {"syntax_details"} else {})
                + (if r.output.Some? then {"output"} else {}))
  }

  /**
   * The report of a decoded record shows its type in the title line, its
   * explanation and fix, a location block exactly when the record has a
   * non-empty file name or a non-zero line number, and the branding footer
   * exactly when its branding is a non-empty text.
   */
  lemma RecordReport(r: Core.DecodedResult, includeTechnical: bool, color: bool)
    ensures var d := ToDict(r);
            var p := PaletteFor(color);
            var lines := ReportLines(d, includeTechnical, color);
            && ReportText(Dict(d), includeTechnical, color) != InvalidData
            && lines[2] == TitleLine(d, p) && ErrorTypeOf(d) == r.errorType
            && lines[6] == r.simpleExplanation
            && lines[9] == r.fixSuggestion
            && (LocationLines(d, p) != [] <==> Core.Truthy(r.fileName) || (r.lineNumber.Some? && r.lineNumber.value != 0))
            && (BrandingLines(d, p) != [] <==> Core.Truthy(r.branding))
  {
    var d := ToDict(r);
    var p := PaletteFor(color);
    var lines := ReportLines(d, includeTechnical, color);
    assert lines == HeaderLines(d, p) + (lines[11..]);
    InvalidOnlyWithoutData(Dict(d), includeTechnical, color);
  }

  /**
   * Formatting a decoded traceback never gives the invalid-data marker, and
   * shows the branding footer exactly when the caller opted in.
   */
  lemma DecodedTracebackReport(u: Core.TextUtils, arg: Core.TextArg, addBranding: bool,
                               includeTechnical: bool, color: bool)
    ensures var d := ToDict(Core.DecodeTraceback(u, arg, addBranding));
            && ReportText(Dict(d), includeTechnical, color) != InvalidData
            && (BrandingLines(d, PaletteFor(color)) != [] <==> addBranding)
  {
    var r := Core.DecodeTraceback(u, arg, addBranding);
    RecordReport(r, includeTechnical, color);
    assert Core.Truthy(r.branding) <==> addBranding;
  }
}
