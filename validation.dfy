/**
 * The diagnostic pipeline of the OpenCML language server: the compiler
 * (`camel --syntax-only --error-format json`) prints one JSON error record per
 * line; `validateCode` keeps the records that decode, in order, and turns each
 * into a zero-width LSP diagnostic; the pull handler answers
 * `textDocument/diagnostic` with a full report.
 */
module Validation {
  import opened Wrappers
  import Lines

  /** One decoded line of the compiler's output; `line` and `column` are 1-based. */
  datatype ErrorInfo = ErrorInfo(filename: string, line: int, column: int, message: string)

  /** LSP position, range and diagnostic; positions are 0-based. */
  datatype Position = Position(line: int, character: int)
  datatype Range = Range(start: Position, end: Position)
  datatype DiagnosticSeverity = Error | Warning | Information | Hint
  datatype Diagnostic = Diagnostic(severity: DiagnosticSeverity, range: Range, message: string, source: string)

  /** The `source` tag of every diagnostic the server emits. */
  const Source: string := "OpenCML"

  /**
   * `JSON.parse(line)` followed by reading the four fields: `Some` when the
   * line decodes, `None` when parsing (or reading a field) throws.
   */
  type Decoder = string -> Option<ErrorInfo>

  /** What the compiler process left behind: its standard output and its exit code (`None` when it was killed by a signal). */
  datatype ToolRun = ToolRun(stdout: string, exitCode: Option<int>)

  /** The rejection of `validateCode`: the compiler exited with a non-zero (or no) code. */
  datatype ValidationError = ProcessExited(code: Option<int>)

  /** A line the translation keeps: non-empty and decodable. */
  predicate Decodable(line: string, decode: Decoder)
  {
    line != "" && decode(line).Some?
  }

  /** What one line contributes to the error list. */
  function DecodeLine(line: string, decode: Decoder): seq<ErrorInfo>
  {
    if line == "" then []
    else match decode(line)
      case Some(e) => [e]
      case None => []
  }

  /** The error list built by the loop of `validateCode` over the given lines. */
  function DecodeLines(lines: seq<string>, decode: Decoder): (errors: seq<ErrorInfo>)
    ensures |errors| <= |lines|
  {
    if lines == [] then []
    else DecodeLine(lines[0], decode) + DecodeLines(lines[1..], decode)
  }

  /**
   * Reference definition of the kept lines: the positions, from `k` on, of
   * the decodable lines, strictly increasing and complete.
   */
  function DecodableIndices(lines: seq<string>, decode: Decoder, k: nat): (idx: seq<nat>)
    requires k <= |lines|
    ensures forall j :: 0 <= j < |idx| ==> k <= idx[j] < |lines| && Decodable(lines[idx[j]], decode)
    ensures forall j, j' :: 0 <= j < j' < |idx| ==> idx[j] < idx[j']
    ensures forall i :: k <= i < |lines| && Decodable(lines[i], decode) ==> i in idx
    decreases |lines| - k
  {
    if k == |lines| then []
    else (if Decodable(lines[k], decode) then [k] else []) + DecodableIndices(lines, decode, k + 1)
  }

  /**
   * `d` reports `e`: a zero-width range whose 0-based start is one less than
   * the record's 1-based line and column (no clamping), severity Error, the
   * record's message unchanged and the server's source tag.
   */
  ghost predicate Reports(d: Diagnostic, e: ErrorInfo)
  {
    && d.range.start == d.range.end
    && d.range.start.line + 1 == e.line
    && d.range.start.character + 1 == e.column
    && d.severity == Error
    && d.message == e.message
    && d.source == Source
  }

  /** The list `errors.map(...)` builds: one diagnostic per record, reporting it, in order. */
  function ToDiagnostics(errors: seq<ErrorInfo>): (ds: seq<Diagnostic>)
    ensures |ds| == |errors|
    ensures forall i :: 0 <= i < |ds| ==> Reports(ds[i], errors[i])
  {
    seq(|errors|, i requires 0 <= i < |errors| =>
      var p := Position(errors[i].line - 1, errors[i].column - 1);
      Diagnostic(Error, Range(p, p), errors[i].message, Source))
  }

  /** The diagnostics `validateCode` resolves with for a given standard output. */
  function Translate(stdout: string, decode: Decoder): seq<Diagnostic>
  {
    ToDiagnostics(DecodeLines(Lines.Split(stdout, '\n'), decode))
  }

  /** The `for ... of stdout.split('\n')` loop of `validateCode`. */
  method CollectErrors(stdout: string, decode: Decoder) returns (errors: seq<ErrorInfo>)
    ensures errors == DecodeLines(Lines.Split(stdout, '\n'), decode)
  {
    var lines := Lines.Split(stdout, '\n');
    errors := [];
    var i := 0;
    while i < |lines|
      invariant 0 <= i <= |lines|
      invariant errors == DecodeLines(lines[..i], decode)
    {
      var line := lines[i];
      if line != "" {
        match decode(line) {
          case Some(e) => errors := errors + [e];
          case None =>
        }
      }
      DecodeLinesAppend(lines[..i], [line], decode);
      assert lines[..i + 1] == lines[..i] + [line];
      i := i + 1;
    }
    assert lines[..i] == lines;
  }

  /**
   * `validateCode` once the compiler has finished: a non-zero exit rejects
   * without any partial list; otherwise the decoded records become diagnostics.
   */
  method ValidateCode(run: ToolRun, decode: Decoder) returns (r: Result<seq<Diagnostic>, ValidationError>)
    ensures r.Failure? <==> run.exitCode != Some(0)
    ensures r.Failure? ==> r.error == ProcessExited(run.exitCode)
    ensures r.Success? ==> r.value == Translate(run.stdout, decode)
  {
    if run.exitCode != Some(0) {
      return Failure(ProcessExited(run.exitCode));
    }
    var errors := CollectErrors(run.stdout, decode);
    r := Success(ToDiagnostics(errors));
  }

  datatype DocumentDiagnosticReportKind = Full | Unchanged
  datatype DocumentDiagnosticReport = DocumentDiagnosticReport(kind: DocumentDiagnosticReportKind, items: seq<Diagnostic>)

  /**
   * The `textDocument/diagnostic` handler. `documents` maps each open URI to
   * its current text; `compile` is the compiler run on a text.
   */
  method PullDiagnostics(documents: map<string, string>, uri: string, compile: string -> ToolRun, decode: Decoder)
    returns (r: Result<DocumentDiagnosticReport, ValidationError>)
    ensures uri !in documents ==> r == Success(DocumentDiagnosticReport(Full, []))
    ensures uri in documents ==> (r.Failure? <==> compile(documents[uri]).exitCode != Some(0))
    ensures uri in documents && r.Failure? ==> r.error == ProcessExited(compile(documents[uri]).exitCode)
    ensures uri in documents && r.Success? ==>
      r.value == DocumentDiagnosticReport(Full, Translate(compile(documents[uri]).stdout, decode))
  {
    if uri in documents {
      var diagnostics := ValidateCode(compile(documents[uri]), decode);
      match diagnostics {
        case Success(items) => r := Success(DocumentDiagnosticReport(Full, items));
        case Failure(e) => r := Failure(e);
      }
    } else {
      r := Success(DocumentDiagnosticReport(Full, []));
    }
  }

  /** The error list of two blocks of lines is the concatenation of theirs. */
  lemma {:induction false} DecodeLinesAppend(a: seq<string>, b: seq<string>, decode: Decoder)
    ensures DecodeLines(a + b, decode) == DecodeLines(a, decode) + DecodeLines(b, decode)
    decreases |a|
  {
    if a != [] {
      DecodeLinesAppend(a[1..], b, decode);
      assert (a + b)[0] == a[0];
      assert (a + b)[1..] == a[1..] + b;
    } else {
      assert a + b == b;
    }
  }

  /**
   * Each kept record comes from the decodable line at the matching position
   * of `DecodableIndices`: one record per decodable line, in line order.
   */
  lemma {:induction false} DecodeLinesByIndex(lines: seq<string>, decode: Decoder, k: nat)
    requires k <= |lines|
    ensures var errors := DecodeLines(lines[k..], decode);
      var idx := DecodableIndices(lines, decode, k);
      && |errors| == |idx|
      && forall j :: 0 <= j < |idx| ==> decode(lines[idx[j]]) == Some(errors[j])
    decreases |lines| - k
  {
    if k < |lines| {
      DecodeLinesByIndex(lines, decode, k + 1);
      assert lines[k..][0] == lines[k];
      assert lines[k..][1..] == lines[k + 1..];
    }
  }

  /**
   * The translation, stated against the lines of the output: one diagnostic
   * per decodable line, in line order, each reporting that line's record.
   */
  lemma TranslateByLine(stdout: string, decode: Decoder)
    ensures var lines := Lines.Split(stdout, '\n');
      var idx := DecodableIndices(lines, decode, 0);
      var ds := Translate(stdout, decode);
      && |ds| == |idx|
      && forall j :: 0 <= j < |idx| ==> decode(lines[idx[j]]).Some? && Reports(ds[j], decode(lines[idx[j]]).value)
  {
    var lines := Lines.Split(stdout, '\n');
    assert lines[0..] == lines;
    DecodeLinesByIndex(lines, decode, 0);
  }

  /** Output printed in two blocks is translated block by block. */
  lemma TranslateConcat(a: string, b: string, decode: Decoder)
    ensures Translate(a + "\n" + b, decode) == Translate(a, decode) + Translate(b, decode)
  {
    Lines.SplitConcat(a, b, '\n');
    DecodeLinesAppend(Lines.Split(a, '\n'), Lines.Split(b, '\n'), decode);
  }

  /**
   * An empty line, or one that does not decode, contributes nothing and does
   * not stop the lines after it from being translated.
   */
  lemma SkippedLineDropped(a: string, line: string, b: string, decode: Decoder)
    requires '\n' !in line
    requires !Decodable(line, decode)
    ensures Translate(a + "\n" + line + "\n" + b, decode) == Translate(a, decode) + Translate(b, decode)
  {
    var x := a + "\n" + line;
    TranslateConcat(x, b, decode);
    TranslateConcat(a, line, decode);
    assert Translate(line, decode) == [] by {
      SplitSingleLine(line, decode);
    }
    assert Translate(x, decode) == Translate(a, decode);
  }

  /** The error list of a text without newlines is what its one line contributes. */
  lemma SplitSingleLine(line: string, decode: Decoder)
    requires '\n' !in line
    ensures DecodeLines(Lines.Split(line, '\n'), decode) == DecodeLine(line, decode)
  {
    Lines.SplitWithoutSeparator(line, '\n');
    assert [line][1..] == [];
  }

  /** A single decodable line (with or without its newline) yields exactly its one diagnostic. */
  lemma SingleRecord(line: string, decode: Decoder)
    requires '\n' !in line
    requires Decodable(line, decode)
    ensures var e := decode(line).value;
      var p := Position(e.line - 1, e.column - 1);
      && Translate(line, decode) == [Diagnostic(Error, Range(p, p), e.message, Source)]
      && Translate(line + "\n", decode) == Translate(line, decode)
  {
    var e := decode(line).value;
    SplitSingleLine(line, decode);
    assert DecodeLine(line, decode) == [e];
    var ds := Translate(line, decode);
    assert |ds| == 1;
    TranslateConcat(line, "", decode);
    assert Translate("", decode) == [];
    assert line + "\n" == line + "\n" + "";
  }
}
