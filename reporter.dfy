/**
 * The console reporter: a listener that writes one line per assertion result,
 * preceded by a title the first time a test case reports, and that renders
 * differences between actual and expected values as a coloured line diff.
 *
 * Everything the reporter echoes is appended to `output`; `die()` is recorded
 * by setting `halted`.
 */
module Reporting {
  import opened TestInterop
  import opened Text
  import opened LineDiff
  import opened ValueFormat

  const ColorRed: string := "\U{1B}[31m"
  const ColorGreen: string := "\U{1B}[32m"
  const ColorReset: string := "\U{1B}[39m"

  // ---------------------------------------------------------------------------
  // Rendering a diff

  /** One node of a diff: deleted lines in red after `+ `, inserted lines in green after `- `. */
  function NodeText(node: Node): string
  {
    match node
    case Change(d, i) =>
      (if d != [] then ColorRed + "+ " + Join(d, "\n") else "")
      + (if i != [] then ColorGreen + "- " + Join(i, "\n") else "")
      + "\n"
    case Line(t) => ColorReset + "  " + t + "\n"
  }

  /** The nodes rendered one after the other. */
  function RenderNodes(nodes: seq<Node>): string
  {
    if nodes == [] then "" else NodeText(nodes[0]) + RenderNodes(nodes[1..])
  }

  lemma {:induction false} RenderNodesConcat(a: seq<Node>, b: seq<Node>)
    ensures RenderNodes(a + b) == RenderNodes(a) + RenderNodes(b)
  {
    if a == [] {
      assert a + b == b;
    } else {
      assert (a + b)[0] == a[0];
      assert (a + b)[1..] == a[1..] + b;
      RenderNodesConcat(a[1..], b);
      calc {
        RenderNodes(a + b);
        NodeText(a[0]) + RenderNodes(a[1..] + b);
        NodeText(a[0]) + (RenderNodes(a[1..]) + RenderNodes(b));
        (NodeText(a[0]) + RenderNodes(a[1..])) + RenderNodes(b);
      }
    }
  }

  lemma RenderOneMore(nodes: seq<Node>, k: nat)
    requires k < |nodes|
    ensures RenderNodes(nodes[..k + 1]) == RenderNodes(nodes[..k]) + NodeText(nodes[k])
  {
    RenderNodesConcat(nodes[..k], [nodes[k]]);
    assert nodes[..k + 1] == nodes[..k] + [nodes[k]];
    assert RenderNodes([nodes[k]]) == NodeText(nodes[k]) + RenderNodes([]);
  }

  /** `formatDiff($old, $new)`: the line diff of the two texts, rendered, then a colour reset. */
  function DiffText(oldText: string, newText: string): string
  {
    RenderNodes(DiffSpec(Split(oldText, '\n'), Split(newText, '\n'))) + ColorReset
  }

  /** Unchanged lines as the diff shows them: after a colour reset and two spaces. */
  function UnchangedText(lines: seq<string>): string
  {
    if lines == [] then "" else ColorReset + "  " + lines[0] + "\n" + UnchangedText(lines[1..])
  }

  lemma {:induction false} RenderLines(xs: seq<string>)
    ensures RenderNodes(Lines(xs)) == UnchangedText(xs)
  {
    if xs != [] {
      RenderLines(xs[1..]);
      assert Lines(xs)[1..] == Lines(xs[1..]);
      assert Lines(xs)[0] == Line(xs[0]);
    }
  }

  /**
   * Two equal texts render as every line unchanged, between two bare line
   * breaks (the empty change nodes around the common run).
   */
  lemma DiffTextOfEqualTexts(s: string)
    ensures DiffText(s, s) == "\n" + UnchangedText(Split(s, '\n')) + "\n" + ColorReset
  {
    var xs := Split(s, '\n');
    DiffOfIdenticalSides(xs);
    var c := [Change([], [])];
    assert NodeText(Change([], [])) == "\n";
    assert RenderNodes(c) == "\n" by {
      assert c[1..] == [];
    }
    RenderNodesConcat(c + Lines(xs), c);
    RenderNodesConcat(c, Lines(xs));
    RenderLines(xs);
  }

  // ---------------------------------------------------------------------------
  // The result line

  /** PHP truthiness of a string: everything except "" and "0". */
  predicate Truthy(s: string)
  {
    s != "" && s != "0"
  }

  function StripTrailingSlashes(p: string): (r: string)
    ensures |r| <= |p| && r == p[..|r|]
    ensures r != [] ==> r[|r| - 1] != '/'
  {
    if p != [] && p[|p| - 1] == '/' then StripTrailingSlashes(p[..|p| - 1]) else p
  }

  function AfterLastSlash(q: string): (r: string)
    ensures '/' !in r
    ensures '/' !in q ==> r == q
  {
    if q == [] || q[|q| - 1] == '/' then []
    else AfterLastSlash(q[..|q| - 1]) + [q[|q| - 1]]
  }

  /** `basename($path)`: the last component of a slash-separated path. */
  function Basename(path: string): (r: string)
    ensures '/' !in r
  {
    AfterLastSlash(StripTrailingSlashes(path))
  }

  lemma {:induction false} AfterSlash(dir: string, name: string)
    requires '/' !in name
    ensures AfterLastSlash(dir + "/" + name) == name
  {
    var q := dir + "/" + name;
    if name == [] {
      assert q[|q| - 1] == '/';
    } else {
      var init := name[..|name| - 1];
      assert q[..|q| - 1] == dir + "/" + init;
      assert q[|q| - 1] == name[|name| - 1];
      AfterSlash(dir, init);
      assert name == init + [name[|name| - 1]];
    }
  }

  /** The base name of `dir/name` is `name`, for a non-empty name without slashes. */
  lemma BasenameOfPath(dir: string, name: string)
    requires '/' !in name && name != []
    ensures Basename(dir + "/" + name) == name
  {
    var p := dir + "/" + name;
    assert p[|p| - 1] == name[|name| - 1];
    assert StripTrailingSlashes(p) == p;
    AfterSlash(dir, name);
  }

  /** The source location: ` <basename>:<line>` when a file is known, else nothing. */
  function TraceText(file: Option<string>, line: Option<int>): string
  {
    if file.Some? && Truthy(file.value) then
      " " + Basename(file.value) + ":" + (if line.Some? then IntToString(line.value) else "")
    else ""
  }

  /** The message shown: the assertion's message, or its kind when the message is falsy. */
  function MessageText(r: AssertionResult): string
  {
    var m := if r.message.Some? && Truthy(r.message.value) then r.message.value else r.kind;
    if Truthy(m) then " " + m else ""
  }

  /** `PASS` or `FAIL`, the location and the message. */
  function Head(r: AssertionResult): string
  {
    (if r.passed then "PASS" else "FAIL") + TraceText(r.file, r.line) + MessageText(r)
  }

  /** The value the reporter reads: a value that was not supplied reads as null. */
  function ShownValue(r: AssertionResult): Value
  {
    r.value.GetOr(Null)
  }

  /** The expected value is shown only when one was supplied and it differs (`!==`). */
  predicate ShowsDiff(r: AssertionResult)
  {
    r.expected.Some? && ShownValue(r) != r.expected.value
  }

  /** A multi-line comparison: the diff of the two renderings, without outer line breaks. */
  function DiffBlock(fv: string, fe: string): string
  {
    "\n" + Trim(DiffText(fv, fe), LineBreaks)
  }

  /** A multi-line value: indented, without outer line breaks. */
  function IndentBlock(fv: string): string
  {
    "\n" + Trim(Indent(fv), LineBreaks)
  }

  /**
   * What follows the message, given the two renderings: a diff when the expected
   * value is shown and either side spans lines, else `(v !== e)`; without an
   * expected value, the indented value when it spans lines, nothing for null,
   * else `(v)`.
   */
  function SuffixFrom(showDiff: bool, fv: string, fe: string, isNull: bool): string
  {
    if showDiff then
      if '\n' in fv + fe then DiffBlock(fv, fe) else " (" + fv + " !== " + fe + ")"
    else if '\n' in fv then IndentBlock(fv)
    else if isNull then ""
    else " (" + fv + ")"
  }

  /** The five ways the suffix is formed. */
  lemma SuffixCases(showDiff: bool, fv: string, fe: string, isNull: bool)
    ensures showDiff && '\n' in fv + fe ==> SuffixFrom(showDiff, fv, fe, isNull) == "\n" + Trim(DiffText(fv, fe), LineBreaks)
    ensures showDiff && '\n' !in fv + fe ==> SuffixFrom(showDiff, fv, fe, isNull) == " (" + fv + " !== " + fe + ")"
    ensures !showDiff && '\n' in fv ==> SuffixFrom(showDiff, fv, fe, isNull) == "\n" + Trim(Indent(fv), LineBreaks)
    ensures !showDiff && '\n' !in fv && isNull ==> SuffixFrom(showDiff, fv, fe, isNull) == ""
    ensures !showDiff && '\n' !in fv && !isNull ==> SuffixFrom(showDiff, fv, fe, isNull) == " (" + fv + ")"
  {
  }

  /** The rendering of the value; failed results are rendered in detail. */
  function ValueText(r: AssertionResult, stack: seq<ObjectId>): string
  {
    FormatValue(ShownValue(r), "", !r.passed, stack)
  }

  /** The rendering of the expected value (null when none was supplied). */
  function ExpectedText(r: AssertionResult, stack: seq<ObjectId>): string
  {
    FormatValue(r.expected.GetOr(Null), "", !r.passed, stack)
  }

  function Suffix(r: AssertionResult, stack: seq<ObjectId>): string
  {
    SuffixFrom(ShowsDiff(r), ValueText(r, stack), ExpectedText(r, stack), ShownValue(r) == Null)
  }

  /** The line `addResult` echoes. */
  function ResultLine(r: AssertionResult, stack: seq<ObjectId>): string
  {
    Head(r) + Suffix(r, stack) + "\n"
  }

  /** `printTitle`. */
  function Title(name: string): string
  {
    "\n=== " + name + " ===\n\n"
  }

  /** The result line opens with the verdict and closes with a line break. */
  lemma ResultLineVerdict(r: AssertionResult, stack: seq<ObjectId>)
    ensures var line := ResultLine(r, stack);
      |line| >= 5 && line[|line| - 1] == '\n' &&
      (line[..4] == "PASS" <==> r.passed) && (line[..4] == "FAIL" <==> !r.passed)
  {
    LineShape(r, Suffix(r, stack));
  }

  lemma LineShape(r: AssertionResult, suffix: string)
    ensures var line := Head(r) + suffix + "\n";
      |line| >= 5 && line[|line| - 1] == '\n' &&
      (line[..4] == "PASS" <==> r.passed) && (line[..4] == "FAIL" <==> !r.passed)
  {
    var verdict := if r.passed then "PASS" else "FAIL";
    var line := Head(r) + suffix + "\n";
    assert line == verdict + (TraceText(r.file, r.line) + MessageText(r) + suffix + "\n");
    assert line[..4] == verdict;
  }

  /**
   * When a differing expected value is shown and neither side spans lines, the
   * line ends with `(v !== e)`; it is then a single line if the head is.
   */
  lemma InlineDifference(r: AssertionResult, stack: seq<ObjectId>)
    requires ShowsDiff(r)
    ensures var fv, fe := ValueText(r, stack), ExpectedText(r, stack);
      var line := ResultLine(r, stack);
      '\n' !in fv && '\n' !in fe ==>
        line == Head(r) + (" (" + fv + " !== " + fe + ")") + "\n" &&
        ('\n' !in Head(r) ==> forall k :: 0 <= k < |line| - 1 ==> line[k] != '\n')
  {
    var fv, fe := ValueText(r, stack), ExpectedText(r, stack);
    if '\n' !in fv && '\n' !in fe {
      var note := " (" + fv + " !== " + fe + ")";
      InlineSuffix(fv, fe, ShownValue(r) == Null);
      OneLine(Head(r), note);
    }
  }

  lemma InlineSuffix(fv: string, fe: string, isNull: bool)
    requires '\n' !in fv && '\n' !in fe
    ensures SuffixFrom(true, fv, fe, isNull) == " (" + fv + " !== " + fe + ")"
    ensures '\n' !in " (" + fv + " !== " + fe + ")"
  {
    assert '\n' !in fv + fe;
  }

  /** A head and a suffix without line breaks make one line. */
  lemma OneLine(head: string, suffix: string)
    requires '\n' !in suffix
    ensures var line := head + suffix + "\n";
      '\n' !in head ==> forall k :: 0 <= k < |line| - 1 ==> line[k] != '\n'
  {
    var line := head + suffix + "\n";
    if '\n' !in head {
      forall k | 0 <= k < |line| - 1
        ensures line[k] != '\n'
      {
        if k < |head| {
          assert line[k] == head[k];
        } else {
          assert line[k] == suffix[k - |head|];
        }
      }
    }
  }

  /**
   * A differing expected value where either side spans lines is shown as the
   * diff of the two renderings, old side the value, new side the expected value.
   */
  lemma MultiLineDifference(r: AssertionResult, stack: seq<ObjectId>)
    requires ShowsDiff(r)
    ensures var fv, fe := ValueText(r, stack), ExpectedText(r, stack);
      ('\n' in fv || '\n' in fe) ==>
        ResultLine(r, stack) == Head(r) + DiffBlock(fv, fe) + "\n"
  {
    var fv, fe := ValueText(r, stack), ExpectedText(r, stack);
    DiffSuffix(fv, fe, ShownValue(r) == Null);
  }

  lemma DiffSuffix(fv: string, fe: string, isNull: bool)
    ensures '\n' in fv || '\n' in fe ==> SuffixFrom(true, fv, fe, isNull) == DiffBlock(fv, fe)
  {
    if '\n' in fv {
      var k :| 0 <= k < |fv| && fv[k] == '\n';
      assert (fv + fe)[k] == '\n';
    } else if '\n' in fe {
      var k :| 0 <= k < |fe| && fe[k] == '\n';
      assert (fv + fe)[|fv| + k] == '\n';
    }
  }

  /**
   * A null value with nothing different to compare against adds nothing after
   * the message, whether the value was passed as null or not passed at all.
   */
  lemma NullValueIsSilent(r: AssertionResult, stack: seq<ObjectId>)
    requires ShownValue(r) == Null && !ShowsDiff(r)
    ensures ResultLine(r, stack) == Head(r) + "\n"
  {
    assert ValueText(r, stack) == "null";
    SilentSuffix(ExpectedText(r, stack));
    assert Head(r) + "" == Head(r);
  }

  lemma SilentSuffix(fe: string)
    ensures SuffixFrom(false, "null", fe, true) == ""
  {
    assert '\n' !in "null";
  }

  /**
   * A value other than null whose rendering spans no lines, with nothing different
   * to compare against: the value in parentheses, rendered in detail when the
   * assertion failed.
   */
  lemma ValueInParentheses(r: AssertionResult, stack: seq<ObjectId>)
    requires !ShowsDiff(r) && ShownValue(r) != Null
    requires '\n' !in FormatValue(ShownValue(r), "", !r.passed, stack)
    ensures ResultLine(r, stack) == Head(r) + (" (" + FormatValue(ShownValue(r), "", !r.passed, stack) + ")") + "\n"
  {
  }

  /**
   * A value whose rendering spans lines, with nothing different to compare
   * against, is shown below the line: every line of the trimmed rendering indented
   * by two spaces, without line breaks at either end.
   */
  lemma IndentedValue(r: AssertionResult, stack: seq<ObjectId>)
    requires !ShowsDiff(r) && '\n' in ValueText(r, stack)
    ensures ResultLine(r, stack) ==
            Head(r) + ("\n" + Trim(IndentedLines(Split(Trim(ValueText(r, stack), PhpWhitespace), '\n')), LineBreaks)) + "\n"
  {
    IndentIsIndentedLines(ValueText(r, stack));
  }

  // ---------------------------------------------------------------------------
  // The listener object

  class TestReporter {
    /** Whether passing results are to be shown; the quiet branch is disabled, so it is only kept. */
    const verbose: bool
    /** Number of test cases begun. */
    var currentTest: int
    /** The case whose title was printed last, or -1. */
    var lastTest: int
    /** The name of the open case; `None` between cases. */
    var currentTestName: Option<string>
    /** The objects being rendered in detail (the static stack of `formatObject`). */
    var stack: seq<ObjectId>
    /** Everything echoed so far. */
    var output: string
    /** Set when the reporter has called `die()`. */
    var halted: bool

    /** A title is due: the current case has not printed one yet. */
    predicate TitleDue()
      reads this
    {
      lastTest != currentTest
    }

    ghost predicate Valid()
      reads this
    {
      -1 <= lastTest <= currentTest
    }

    /** The reporter shows passing results when told so, else when the `verbose`/`v` option is set. */
    constructor(verboseArg: Option<bool>, verboseOption: bool)
      ensures verbose == (if verboseArg.Some? then verboseArg.value else verboseOption)
      ensures currentTest == 0 && lastTest == -1 && currentTestName == None
      ensures stack == [] && output == "" && !halted
      ensures Valid() && TitleDue()
    {
      verbose := if verboseArg.Some? then verboseArg.value else verboseOption;
      currentTest := 0;
      lastTest := -1;
      currentTestName := None;
      stack := [];
      output := "";
      halted := false;
    }

    /** `beginTestCase`: a new case is current, so its first result will print a title. */
    method BeginTestCase(name: string, className: Option<string>) returns (handle: TestReporter)
      requires Valid()
      modifies this
      ensures handle == this
      ensures currentTestName == Some(name) && currentTest == old(currentTest) + 1
      ensures lastTest == old(lastTest) && output == old(output) && stack == old(stack)
      ensures halted == old(halted)
      ensures Valid() && TitleDue()
    {
      currentTestName := Some(name);
      currentTest := currentTest + 1;
      handle := this;
    }

    /** `endTestCase`: no case is current. */
    method EndTestCase()
      modifies this
      ensures currentTestName == None
      ensures currentTest == old(currentTest) && lastTest == old(lastTest)
      ensures output == old(output) && stack == old(stack) && halted == old(halted)
    {
      currentTestName := None;
    }

    /**
     * `addResult`: the title when due, then the result line. A title due while
     * no case is open is `printTitle(null)`, which raises a type error before
     * anything is printed: `typeError` reports it, and nothing changes.
     */
    method AddResult(r: AssertionResult) returns (typeError: bool)
      requires Valid()
      modifies this
      ensures typeError <==> old(TitleDue()) && old(currentTestName).None?
      ensures typeError ==> output == old(output) && lastTest == old(lastTest)
      ensures !typeError ==>
        output == old(output)
                  + (if old(TitleDue()) then Title(old(currentTestName).value) else "")
                  + ResultLine(r, old(stack)) &&
        lastTest == currentTest && !TitleDue()
      ensures currentTest == old(currentTest) && currentTestName == old(currentTestName)
      ensures stack == old(stack) && halted == old(halted)
      ensures Valid()
    {
      typeError := false;
      ghost var printed := output + (if TitleDue() && currentTestName.Some? then Title(currentTestName.value) else "");
      if lastTest != currentTest {
        if currentTestName.None? {
          typeError := true;
          return;
        }
        output := output + Title(currentTestName.value);
        lastTest := currentTest;
      } else {
        assert output + "" == output;
      }
      assert output == printed;
      var line := ResultLineText(r);
      output := output + line;
    }

    /** The line echoed for a result: verdict, location, message, value suffix, line break. */
    method ResultLineText(r: AssertionResult) returns (line: string)
      modifies this
      ensures line == ResultLine(r, old(stack))
      ensures stack == old(stack) && output == old(output) && halted == old(halted)
      ensures currentTest == old(currentTest) && lastTest == old(lastTest) && currentTestName == old(currentTestName)
    {
      var suffix := ValueSuffix(r);
      var trace := TraceText(r.file, r.line);
      var message := MessageText(r);
      line := (if r.passed then "PASS" else "FAIL") + trace + message + suffix + "\n";
    }

    /**
     * The part of `addResult` after the message: the value and the expected
     * value rendered (in detail for a failed result), then the diff, the inline
     * comparison, the indented value, nothing, or the value in parentheses.
     */
    method ValueSuffix(r: AssertionResult) returns (suffix: string)
      modifies this`stack
      ensures suffix == Suffix(r, old(stack))
      ensures stack == old(stack)
    {
      var detailed := !r.passed;
      var value := r.value.GetOr(Null);
      var fv := FormatValue(value, "", detailed);
      ghost var fe := ExpectedText(r, stack);
      SuffixCases(ShowsDiff(r), fv, fe, value == Null);
      if r.expected.Some? && value != r.expected.value {
        var fe := FormatValue(r.expected.value, "", detailed);
        if '\n' in fv + fe {
          var diff := FormatDiff(fv, fe);
          suffix := "\n" + Trim(diff, LineBreaks);
        } else {
          suffix := " (" + fv + " !== " + fe + ")";
        }
      } else if '\n' in fv {
        suffix := "\n" + Trim(Indent(fv), LineBreaks);
      } else if value == Null {
        suffix := "";
      } else {
        suffix := " (" + fv + ")";
      }
    }

    /** `addError`: echoes the method name, the message and the trace, then ends the process. */
    method AddError(e: Throwable)
      modifies this
      ensures output == old(output) + "mindplay\\testies\\Reporting\\TestReporter::addError"
                        + e.message + "\n" + e.trace
      ensures halted
      ensures currentTest == old(currentTest) && lastTest == old(lastTest)
      ensures currentTestName == old(currentTestName) && stack == old(stack)
    {
      output := output + "mindplay\\testies\\Reporting\\TestReporter::addError" + e.message + "\n" + e.trace;
      halted := true;
    }

    /** `setSkipped`: echoes the method name and the reason, then ends the process. */
    method SetSkipped(reason: string)
      modifies this
      ensures output == old(output) + "mindplay\\testies\\Reporting\\TestReporter::setSkipped\n" + reason
      ensures halted
      ensures currentTest == old(currentTest) && lastTest == old(lastTest)
      ensures currentTestName == old(currentTestName) && stack == old(stack)
    {
      output := output + "mindplay\\testies\\Reporting\\TestReporter::setSkipped\n" + reason;
      halted := true;
    }

    /**
     * `formatValue`: arrays and objects shown in detail are rendered by the
     * methods below, which keep this reporter's object stack; every other value
     * is rendered directly. The stack is as it was on return.
     */
    method FormatValue(v: Value, indent: string, detailed: bool) returns (text: string)
      modifies this`stack
      ensures text == ValueFormat.FormatValue(v, indent, detailed, old(stack))
      ensures stack == old(stack)
      decreases v, 1
    {
      if detailed && v.Array? {
        var body := FormatArrayValues(v.entries, indent + "  ");
        text := "[" + body + indent + "]";
      } else if detailed && v.Object? {
        text := FormatObject(v, indent);
      } else {
        text := ValueFormat.FormatValue(v, indent, detailed, stack);
      }
    }

    /**
     * `formatObject`: an object on the stack shows as `{Class}`; otherwise it is
     * pushed while its properties are rendered and popped again, so the stack is
     * as it was.
     */
    method FormatObject(v: Value, indent: string) returns (text: string)
      requires v.Object?
      modifies this`stack
      ensures text == ValueFormat.FormatObject(v, indent, old(stack))
      ensures stack == old(stack)
      decreases v, 0
    {
      if v.id in stack {
        return "{" + v.className + "}";
      }
      ghost var outer := stack;
      stack := stack + [v.id];
      var shown := if v.isStdClass then "" else v.className;
      var properties := FormatProperties(v.fields, indent + "  ");
      text := "{" + shown + properties + indent + "}";
      stack := stack[..|stack| - 1];
      assert stack == outer;
    }

    /** `formatProperties`: one line per property, collected in order, then joined with commas. */
    method FormatProperties(fs: seq<Field>, indent: string) returns (text: string)
      modifies this`stack
      ensures text == ValueFormat.FormatProperties(fs, indent, old(stack))
      ensures stack == old(stack)
      decreases fs, 2
    {
      ghost var lines := FieldLines(fs, indent, stack);
      var formatted: seq<string> := [];
      for k := 0 to |fs|
        invariant stack == old(stack)
        invariant formatted == lines[..k]
      {
        assert fs[k] in fs;
        var line := FormatField(fs[k], indent);
        FieldLinesAt(fs, indent, stack, k);
        PrefixGrows(lines, k);
        formatted := formatted + [line];
      }
      assert lines[..|fs|] == lines;
      text := Join(formatted, ",") + (if |formatted| > 0 then "\n" else "");
    }

    /** One property's line: its name, then its value rendered in detail. */
    method FormatField(f: Field, indent: string) returns (line: string)
      modifies this`stack
      ensures line == FieldLine(f, indent, old(stack))
      ensures stack == old(stack)
      decreases f, 0
    {
      var value := FormatValue(f.value, indent, true);
      line := FieldHead(f.name, indent) + value;
    }

    /** `formatArrayValues`: one line per entry, collected in order, then joined with commas. */
    method FormatArrayValues(es: seq<Entry>, indent: string) returns (text: string)
      modifies this`stack
      ensures text == ValueFormat.FormatArrayValues(es, indent, old(stack))
      ensures stack == old(stack)
      decreases es, 2
    {
      ghost var lines := EntryLines(es, indent, stack);
      var formatted: seq<string> := [];
      for k := 0 to |es|
        invariant stack == old(stack)
        invariant formatted == lines[..k]
      {
        assert es[k] in es;
        var line := FormatEntry(es[k], indent);
        EntryLinesAt(es, indent, stack, k);
        PrefixGrows(lines, k);
        formatted := formatted + [line];
      }
      assert lines[..|es|] == lines;
      text := Join(formatted, ",") + (if |formatted| > 0 then "\n" else "");
    }

    /** One entry's line: its key, then its value rendered in detail. */
    method FormatEntry(e: Entry, indent: string) returns (line: string)
      modifies this`stack
      ensures line == EntryLine(e, indent, old(stack))
      ensures stack == old(stack)
      decreases e, 0
    {
      var value := FormatValue(e.value, indent, true);
      line := EntryHead(e.key, indent) + value;
    }

    /** `formatDiff`: the diff of the two texts' lines, each node rendered in turn. */
    method FormatDiff(oldText: string, newText: string) returns (text: string)
      ensures text == DiffText(oldText, newText)
    {
      var nodes := Diff(Split(oldText, '\n'), Split(newText, '\n'));
      text := "";
      for k := 0 to |nodes|
        invariant text == RenderNodes(nodes[..k])
      {
        RenderOneMore(nodes, k);
        text := text + NodeText(nodes[k]);
      }
      assert nodes[..|nodes|] == nodes;
      text := text + ColorReset;
    }
  }
}
