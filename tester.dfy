/**
 * The assertion API handed to a test function: `ok`, `eq` and `expect` each
 * send one assertion result of their own to the current test case, stamped with
 * the location of the assertion in the test's own file.
 *
 * The call stack, the test function's file, the `instanceof` test and
 * `preg_match` are inputs: the stack as a list of frames, the others as
 * uninterpreted predicates.
 */
module Assertions {
  import opened TestInterop

  /** The runner's class name; its frames are never the location of an assertion. */
  const RunnerClass: string := "mindplay\\testies\\TestRunner"

  /** One frame of `debug_backtrace`, innermost first; missing entries are `None`. */
  datatype Frame = Frame(cls: Option<string>, file: Option<string>, line: Option<int>)

  /**
   * A frame can locate an assertion: it does not belong to the runner, and it
   * lies in the test function's file (`None` when reflection reports no file).
   */
  predicate Locates(f: Frame, testFile: Option<string>)
  {
    f.cls != Some(RunnerClass) && testFile.Some? && f.file == testFile
  }

  /** The outermost frame (largest index) that locates the assertion, if any. */
  function OutermostLocating(frames: seq<Frame>, testFile: Option<string>): (k: Option<nat>)
    ensures k.Some? ==>
      k.value < |frames| && Locates(frames[k.value], testFile) &&
      forall j :: k.value < j < |frames| ==> !Locates(frames[j], testFile)
    ensures k.None? ==> forall j :: 0 <= j < |frames| ==> !Locates(frames[j], testFile)
  {
    if frames == [] then None
    else if Locates(frames[|frames| - 1], testFile) then Some(|frames| - 1)
    else
      var k := OutermostLocating(frames[..|frames| - 1], testFile);
      assert forall j :: 0 <= j < |frames| - 1 ==> frames[..|frames| - 1][j] == frames[j];
      k
  }

  /** Where an assertion is reported: the file and line of that frame, or none. */
  function Location(frames: seq<Frame>, testFile: Option<string>): (Option<string>, Option<int>)
  {
    match OutermostLocating(frames, testFile)
    case Some(k) => (frames[k].file, frames[k].line)
    case None => (None, None)
  }

  /**
   * `trace`: counts down from the outermost frame, skipping the runner's frames,
   * and stops at the first frame in the test's file.
   */
  method Trace(frames: seq<Frame>, testFile: Option<string>) returns (file: Option<string>, line: Option<int>)
    ensures (file, line) == Location(frames, testFile)
    ensures file.None? <==> forall j :: 0 <= j < |frames| ==> !Locates(frames[j], testFile)
  {
    file, line := None, None;
    var i := |frames|;
    while i > 0
      invariant 0 <= i <= |frames|
      invariant OutermostLocating(frames, testFile) == OutermostLocating(frames[..i], testFile)
      invariant file == None && line == None
    {
      i := i - 1;
      var frame := frames[i];
      assert frames[..i + 1][..i] == frames[..i];
      assert frames[..i + 1][i] == frame;
      if frame.cls == Some(RunnerClass) {
        continue;
      }
      if testFile.Some? && frame.file == testFile {
        file := frame.file;
        line := frame.line;
        break;
      }
    }
    assert frames[..0] == [];
  }

  /** The result `addResult` builds: located when a frame was found, value and expected as supplied. */
  function NewResult(passed: bool, kind: string, context: seq<Entry>, message: Option<string>,
                     value: Option<Value>, expected: Option<Value>,
                     frames: seq<Frame>, testFile: Option<string>): (r: AssertionResult)
    ensures r.passed == passed && r.kind == kind && r.context == context && r.message == message
    ensures r.value == value && r.expected == expected
    ensures r.file.Some? <==> exists j :: 0 <= j < |frames| && Locates(frames[j], testFile)
    ensures r.file.None? ==> r.line.None?
  {
    var (file, line) := Location(frames, testFile);
    AssertionResult(passed, kind, context, message, value, expected, file, line)
  }

  /** What the test body did: returned, or threw. */
  datatype BodyOutcome = Completed | Threw(error: Throwable)

  /** `$patterns`: one pattern, or a list of them (`(array)` makes the former a list of one). */
  datatype Patterns = One(pattern: string) | Many(patterns: seq<string>)

  function PatternList(p: Patterns): seq<string>
  {
    match p
    case One(x) => [x]
    case Many(xs) => xs
  }

  /** The first pattern that does not match the message, if any; later patterns are not consulted. */
  function FirstMismatch(patterns: seq<string>, subject: string, pregMatch: (string, string) -> bool): (k: Option<nat>)
    ensures k.Some? ==>
      k.value < |patterns| && !pregMatch(patterns[k.value], subject) &&
      forall j :: 0 <= j < k.value ==> pregMatch(patterns[j], subject)
    ensures k.None? ==> forall j :: 0 <= j < |patterns| ==> pregMatch(patterns[j], subject)
  {
    if patterns == [] then None
    else if !pregMatch(patterns[0], subject) then Some(0)
    else
      match FirstMismatch(patterns[1..], subject, pregMatch)
      case None => None
      case Some(k) => Some(k + 1)
  }

  /**
   * The one result `expect` sends, as
   * (passed, kind, message, value): no exception is a failure from `ok`; an
   * exception of another kind is a failure from `ok` without a value; an
   * exception of the kind is checked against the patterns in order.
   */
  function ExpectResult(exceptionType: string, message: string, outcome: BodyOutcome, patterns: Patterns,
                        instanceOf: (Throwable, string) -> bool, pregMatch: (string, string) -> bool,
                        frames: seq<Frame>, testFile: Option<string>): AssertionResult
  {
    match outcome
    case Completed =>
      NewResult(false, "ok", [], Some(message + " (expected " + exceptionType + ", but no exception was thrown)"),
                None, None, frames, testFile)
    case Threw(e) =>
      if !instanceOf(e, exceptionType) then
        NewResult(false, "ok", [], Some(message + " (expected " + exceptionType + ", but " + e.className + " was thrown)"),
                  None, None, frames, testFile)
      else
        var ps := PatternList(patterns);
        match FirstMismatch(ps, e.message, pregMatch)
        case Some(k) =>
          NewResult(false, "expect", [], Some(message + " (message pattern mismatch: " + ps[k] + ")"),
                    Some(Thrown(e)), None, frames, testFile)
        case None =>
          NewResult(true, "expect", [], Some(message), Some(Thrown(e)), None, frames, testFile)
  }

  /**
   * `expect` passes exactly when the body threw an exception of the expected
   * kind whose message matches every pattern; the exception is attached as the
   * value exactly when it is of that kind.
   */
  lemma ExpectVerdict(exceptionType: string, message: string, outcome: BodyOutcome, patterns: Patterns,
                      instanceOf: (Throwable, string) -> bool, pregMatch: (string, string) -> bool,
                      frames: seq<Frame>, testFile: Option<string>)
    ensures var r := ExpectResult(exceptionType, message, outcome, patterns, instanceOf, pregMatch, frames, testFile);
      (r.passed <==>
         outcome.Threw? && instanceOf(outcome.error, exceptionType) &&
         forall j :: 0 <= j < |PatternList(patterns)| ==> pregMatch(PatternList(patterns)[j], outcome.error.message)) &&
      (r.value.Some? <==> outcome.Threw? && instanceOf(outcome.error, exceptionType)) &&
      (r.value.Some? ==> r.value == Some(Thrown(outcome.error))) &&
      r.expected.None?
  {
  }

  /**
   * A failed pattern check names the first pattern that does not match; the
   * result of a body that did not throw says so.
   */
  lemma ExpectMessages(exceptionType: string, message: string, outcome: BodyOutcome, patterns: Patterns,
                       instanceOf: (Throwable, string) -> bool, pregMatch: (string, string) -> bool,
                       frames: seq<Frame>, testFile: Option<string>)
    ensures var r := ExpectResult(exceptionType, message, outcome, patterns, instanceOf, pregMatch, frames, testFile);
      (outcome.Completed? ==>
         r.kind == "ok" && r.message == Some(message + " (expected " + exceptionType + ", but no exception was thrown)")) &&
      (outcome.Threw? && !instanceOf(outcome.error, exceptionType) ==>
         r.kind == "ok" &&
         r.message == Some(message + " (expected " + exceptionType + ", but " + outcome.error.className + " was thrown)")) &&
      (outcome.Threw? && instanceOf(outcome.error, exceptionType) ==>
         (r.kind == "expect" &&
          forall k :: 0 <= k < |PatternList(patterns)| &&
                      !pregMatch(PatternList(patterns)[k], outcome.error.message) &&
                      (forall j :: 0 <= j < k ==> pregMatch(PatternList(patterns)[j], outcome.error.message)) ==>
            r.message == Some(message + " (message pattern mismatch: " + PatternList(patterns)[k] + ")")))
  {
    if outcome.Threw? && instanceOf(outcome.error, exceptionType) {
      var ps := PatternList(patterns);
      var m := FirstMismatch(ps, outcome.error.message, pregMatch);
      forall k | 0 <= k < |ps| && !pregMatch(ps[k], outcome.error.message) &&
                 (forall j :: 0 <= j < k ==> pregMatch(ps[j], outcome.error.message))
        ensures m == Some(k)
      {
        FirstMismatchIs(ps, outcome.error.message, pregMatch, k);
      }
    }
  }

  /** The assertion API bound to one test function and one test case. */
  class Tester {
    /** The file the test function was declared in, as reflection reports it. */
    const testFile: Option<string>
    /** The results sent to the test case, in the order the assertions ran. */
    var sent: seq<AssertionResult>

    constructor(testFile: Option<string>)
      ensures this.testFile == testFile && sent == []
    {
      this.testFile := testFile;
      sent := [];
    }

    /**
     * `addResult`: builds one result, located by the frames of the call, and
     * sends it to the case.
     */
    method AddResult(passed: bool, kind: string, context: seq<Entry>, message: Option<string>,
                     value: Option<Value>, expected: Option<Value>, frames: seq<Frame>)
      modifies this
      ensures sent == old(sent) + [NewResult(passed, kind, context, message, value, expected, frames, testFile)]
    {
      var file, line := Trace(frames, testFile);
      var r := AssertionResult(passed, kind, context, message, value, expected, None, None);
      if file.Some? {
        r := r.(file := file, line := line);
      }
      sent := sent + [r];
    }

    /** `ok`: passes with the given outcome; `value` is recorded only when it was passed. */
    method Ok(result: bool, message: Option<string>, value: Option<Value>, frames: seq<Frame>)
      modifies this
      ensures sent == old(sent) + [NewResult(result, "ok", [], message, value, None, frames, testFile)]
    {
      AddResult(result, "ok", [], message, value, None, frames);
    }

    /** `eq`: passes exactly when the two values are identical; both are always recorded. */
    method Eq(value: Value, expected: Value, message: Option<string>, frames: seq<Frame>)
      modifies this
      ensures sent == old(sent) + [NewResult(value == expected, "eq", [], message, Some(value), Some(expected), frames, testFile)]
    {
      AddResult(value == expected, "eq", [], message, Some(value), Some(expected), frames);
    }

    /**
     * `expect`: runs the body (its outcome is given), then reports one result:
     * through `ok` when nothing or something of another kind was thrown, else
     * after checking the patterns in order and stopping at the first mismatch.
     */
    method Expect(exceptionType: string, message: string, outcome: BodyOutcome, patterns: Patterns,
                  instanceOf: (Throwable, string) -> bool, pregMatch: (string, string) -> bool,
                  frames: seq<Frame>)
      modifies this
      ensures sent == old(sent) + [ExpectResult(exceptionType, message, outcome, patterns, instanceOf, pregMatch, frames, testFile)]
    {
      match outcome
      case Completed =>
        Ok(false, Some(message + " (expected " + exceptionType + ", but no exception was thrown)"), None, frames);
      case Threw(error) =>
        if instanceOf(error, exceptionType) {
          var ps := PatternList(patterns);
          for k := 0 to |ps|
            invariant sent == old(sent)
            invariant forall j :: 0 <= j < k ==> pregMatch(ps[j], error.message)
          {
            if !pregMatch(ps[k], error.message) {
              FirstMismatchIs(ps, error.message, pregMatch, k);
              AddResult(false, "expect", [], Some(message + " (message pattern mismatch: " + ps[k] + ")"),
                        Some(Thrown(error)), None, frames);
              return;
            }
          }
          AddResult(true, "expect", [], Some(message), Some(Thrown(error)), None, frames);
        } else {
          Ok(false, Some(message + " (expected " + exceptionType + ", but " + error.className + " was thrown)"), None, frames);
        }
    }
  }

  lemma FirstMismatchIs(ps: seq<string>, subject: string, pregMatch: (string, string) -> bool, k: nat)
    requires k < |ps| && !pregMatch(ps[k], subject)
    requires forall j :: 0 <= j < k ==> pregMatch(ps[j], subject)
    ensures FirstMismatch(ps, subject, pregMatch) == Some(k)
  {
  }
}
