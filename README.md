# testies in Dafny

A model of the in-memory engine of mindplay/testies, a small PHP unit-test
framework. The model covers these parts:

- **Console reporter** (`reporter.dfy`, with `line_diff.dfy`, `value_format.dfy` and
  `text.dfy`):
  - the line diff ("simplediff": the longest common contiguous run of lines, recursively);
  - the coloured rendering of that diff;
  - the debug formatter for PHP values;
  - the PASS/FAIL line written for each assertion result, with the title printed
    once per test case.
- **Assertion API** (`tester.dfy`): `ok`, `eq` and `expect` each send one assertion
  result of their own to the current test case. A result is located by scanning the
  call stack for the test function's file.
- **Runner** (`runner.dfy`, `run_properties.dfy`):
  - the suite loop and the listener calls it makes, in order;
  - the optional abort after the first test that throws;
  - the strict error handler's severity test.
- **Bookkeeping objects**:
  - `test_result.dfy`: the failure flag;
  - `test_suite.dfy`: the append-only suite;
  - `recording.dfy`: the recording listener, with its recorded cases and suites.

Modelling choices:

- PHP values are the `Value` datatype in `interop.dfy`. Objects carry an identity, a
  class name, whether they are an instance of `stdClass` (the class or a subclass),
  and their properties in order.
- The output stream (`echo`) is the reporter's `output` string.
- A listener is a log of the calls it receives (`ListenerEvent`).
- A test function is represented by its outcome: the results its tester reported,
  then the throwable that escaped, if any.
- Each object whose fields the PHP code updates is a Dafny class. Its methods are
  proved against pure specification functions, and the lemmas are stated over those
  functions:
  - `DiffSpec`, `FormatValue` and `ResultLine` for the reporter;
  - `ExpectResult` for the assertion API;
  - `RunSpec` for the runner;
  - `Step`/`Fold` for the failure flag;
  - `Guard`/`Next`/`Replay` for the recording listener.

Where the code and its description disagree, the model follows the code:

- `diff(X, X)` for non-empty `X` puts an empty change node before and after the run
  of unchanged lines. It is not the unchanged lines alone.
- `expect` with an exception of the wrong type records a failed `ok` result with no
  value attached.
- Strings are escaped only for CR and the double quote. Other control characters and
  the backslash are kept as they are.
- `trace` scans the frames from the outermost one inward, skips runner frames, and
  picks the first frame whose file is the test file.
- The location printed after PASS/FAIL is `" " + basename(file) + ":" + line`.
- `TestRunner::run` builds no result listener and returns no verdict. Only its
  listener calls and its abort are modelled.
- The reporter has no `setDisabled`.
- An `addResult` on the reporter while a title is due and no test case is open calls
  `printTitle(null)`. That happens before the first case, or after a case that ended
  without printing its title. It raises a TypeError, modelled as the `typeError` flag.
  After a case that printed its title has ended, `addResult` prints its line with no
  title and no error.

## Model

| member | source | states |
|---|---|---|
| Text.Split | src/Reporting/TestReporter.php:343 | `explode` on one character yields one more piece than there are separators, and no piece contains the separator |
| Text.SplitThenJoin | src/Reporting/TestReporter.php:157 | imploding the pieces of an explode with the same separator gives the string back |
| Text.SplitAfterPiece | src/Reporting/TestReporter.php:343 | a piece without the separator followed by the separator splits off as the first piece |
| Text.JoinThenSplit | src/Reporting/TestReporter.php:157 | exploding an implode of separator-free pieces gives the pieces back |
| Text.Trim | src/Reporting/TestReporter.php:105-113 | `trim` leaves no listed character at either end, yields "" exactly when every character is listed, and otherwise is the slice between the leading and trailing runs |
| Text.IntToString | src/Reporting/TestReporter.php:192-193 | integer rendering is an optional minus sign and digits, with the sign exactly for negatives |
| Text.IntToStringRoundTrip | src/Reporting/TestReporter.php:192-193 | the integer's decimal text reads back as the integer, so the rendering is exact (rounding beyond ±2^53 on older PHP is listed under Left out) |
| Text.DigitsRoundTrip | src/Reporting/TestReporter.php:192-193 | the decimal digits of a natural number read back as that number |
| Text.Escape | src/Reporting/TestReporter.php:203 | the escaped string has no CR, every `"` in it is preceded by a backslash, and every other character is kept in both directions |
| Text.UnescapeInvertsEscape | src/Reporting/TestReporter.php:203 | for strings without a backslash the escaping can be undone |
| Text.EscapeConflatesBackslash | src/Reporting/TestReporter.php:203 | a CR and the two characters backslash-r render alike, because the backslash itself is not escaped |
| LineDiff.RunLen | src/Reporting/TestReporter.php:375-377 | a matrix cell is positive exactly when the two lines are equal, and never exceeds either index plus one |
| LineDiff.RunLenIsCommonRun | src/Reporting/TestReporter.php:375-377 | the cell value is the length of a common run of lines ending at that cell |
| LineDiff.LongestRunIsFirstLongest | src/Reporting/TestReporter.php:371-386 | the chosen run is at least as long as every cell, is zero exactly when the two sides share no line, and on ties is the first reached in the row-major scan |
| LineDiff.LongestRunFits | src/Reporting/TestReporter.php:382-383 | the chosen `omax`, `nmax`, `maxlen` mark equal slices inside both sides |
| LineDiff.DiffReconstructs | src/Reporting/TestReporter.php:364-397 | the unchanged lines with each node's `d` lists give the old lines back, and with the `i` lists the new lines |
| LineDiff.DiffWithoutCommonLine | src/Reporting/TestReporter.php:388-390 | the diff is the single node `{d: old, i: new}` exactly when the sides share no line (so `diff([], [])` is one empty node) |
| LineDiff.DiffOfIdenticalSides | src/Reporting/TestReporter.php:371-396 | the diff of a list with itself is its lines unchanged, between two empty change nodes |
| LineDiff.DiffSpecUnfold | src/Reporting/TestReporter.php:392-396 | a diff with a common run is the diff before it, the run's lines, and the diff after it |
| LineDiff.Diff | src/Reporting/TestReporter.php:364-397 | the imperative diff returns the specified node sequence |
| LineDiff.FindLongestRun | src/Reporting/TestReporter.php:368-386 | the nested matrix loops compute the first longest common run |
| LineDiff.ScanRow | src/Reporting/TestReporter.php:374-385 | one row of the matrix loop keeps the cells and the best run so far equal to the scan up to the row's end |
| LineDiff.ScanToIsFirstLongest | src/Reporting/TestReporter.php:371-386 | after scanning up to any cell, every cell visited holds at most the best run's length, and the best run, when not empty, ends at a visited cell holding its length, with every cell visited before that one holding less |
| LineDiff.ScanStep | src/Reporting/TestReporter.php:375-384 | visiting one cell: a matching cell whose value is strictly greater than `maxlen` becomes the best run (a tie keeps the earlier one); otherwise the best run is unchanged |
| LineDiff.ScanCell | src/Reporting/TestReporter.php:372-377 | a cell is written only for equal lines, with one more than its diagonal predecessor when that is set and 1 otherwise, which is the length of the common run ending there |
| LineDiff.LongestRunIsLongest | src/Reporting/TestReporter.php:371-386 | no matrix cell holds a longer common run than the one kept |
| LineDiff.LongestRunEmpty | src/Reporting/TestReporter.php:371-388 | `maxlen` stays 0 exactly when no old line equals any new line |
| LineDiff.RunFits | src/Reporting/TestReporter.php:375-383 | a run ending at a cell that holds its length marks equal slices of the old and the new lines at `omax` and `nmax` |
| LineDiff.LongestRunOfIdentical | src/Reporting/TestReporter.php:371-386 | comparing a non-empty list with itself keeps the whole list, starting at 0 on both sides |
| ValueFormat.KeyText | src/Reporting/TestReporter.php:278-280 | integer keys print as decimals that read back as the key; string keys print quoted |
| ValueFormat.QuoteString | src/Reporting/TestReporter.php:203 | a string prints as its escaping between double quotes, containing a line feed exactly when the string does |
| ValueFormat.EntryLines | src/Reporting/TestReporter.php:277-283 | one formatted line per array entry |
| ValueFormat.FieldLines | src/Reporting/TestReporter.php:266-268 | one formatted line per object property |
| ValueFormat.EntryLineAt | src/Reporting/TestReporter.php:282 | entry k prints as line feed, indent, key, ` => ` and the detailed value |
| ValueFormat.FieldLineAt | src/Reporting/TestReporter.php:267 | property k prints as line feed, indent, `$name = ` and the detailed value |
| ValueFormat.IntRendering | src/Reporting/TestReporter.php:192-193 | an integer prints as exact decimal text that reads back as the integer (rounding beyond ±2^53 on older PHP is listed under Left out) |
| ValueFormat.StringRendering | src/Reporting/TestReporter.php:202-203 | a string prints between quotes and, without backslashes, can be recovered |
| ValueFormat.CompactArrayRendering | src/Reporting/TestReporter.php:205-208 | a non-detailed array prints as `array[n]` with n its element count |
| ValueFormat.CompactLineBreaks | src/Reporting/TestReporter.php:182-239 | a non-detailed value spans several lines exactly when it is a throwable, or a string, class name or type name containing a line feed |
| ValueFormat.DetailedArrayLineBreaks | src/Reporting/TestReporter.php:205-207 | a detailed array spans several lines exactly when it is non-empty |
| ValueFormat.SelfReference | src/Reporting/TestReporter.php:241-258 | an object whose property refers back to the object itself shows the inner occurrence as `{Class}` instead of expanding it again; the class is named there even for a `stdClass` instance, whose outer braces name none |
| ValueFormat.SinglePropertyObject | src/Reporting/TestReporter.php:241-271 | an object with one property renders as its braces, with no class for a `stdClass` instance, around one `$name = value` line rendered with the object on the stack |
| ValueFormat.RenderingContext | src/Reporting/TestReporter.php:182-239 | only arrays, objects and throwables depend on detail, indentation or the object stack; a compact rendering never depends on indentation or stack |
| ValueFormat.IndentIsIndentedLines | src/Reporting/TestReporter.php:155-158 | `indent` is the trimmed text's lines, each prefixed by two spaces and ended by a line feed |
| ValueFormat.JoinIndented | src/Reporting/TestReporter.php:157 | joining with "\n  " between a leading "  " and a trailing "\n" indents every line |
| Reporting.RenderNodesConcat | src/Reporting/TestReporter.php:345-353 | the diff rendering of a concatenation is the concatenation of the renderings |
| Reporting.DiffTextOfEqualTexts | src/Reporting/TestReporter.php:338-356 | the diff of a text with itself renders every line as unchanged, framed by the two empty change nodes |
| Reporting.Basename | src/Reporting/TestReporter.php:122 | the basename holds no slash |
| Reporting.BasenameOfPath | src/Reporting/TestReporter.php:121-123 | the basename of `dir/name` is `name` |
| Reporting.ResultLineVerdict | src/Reporting/TestReporter.php:131 | the result line starts with PASS exactly for a passed assertion and FAIL otherwise, and ends with a line feed |
| Reporting.InlineDifference | src/Reporting/TestReporter.php:97-107 | with an expected value that differs and single-line renderings, the line ends in ` (v !== e)` and stays one line |
| Reporting.MultiLineDifference | src/Reporting/TestReporter.php:99-105 | when either rendering spans lines, the line carries the trimmed coloured diff |
| Reporting.NullValueIsSilent | src/Reporting/TestReporter.php:109-118 | a null or absent value with no differing expected value adds no suffix |
| Reporting.ValueInParentheses | src/Reporting/TestReporter.php:109-118 | a non-null value whose rendering (in detail for a failed assertion) spans no lines, with no differing expected value, is shown in parentheses |
| Reporting.IndentedValue | src/Reporting/TestReporter.php:109-113 | a value whose rendering spans lines, with no differing expected value, is shown below the line as the trimmed rendering's lines, each indented by two spaces |
| Reporting.TestReporter.constructor | src/Reporting/TestReporter.php:50-55 | verbosity comes from the argument when it is a boolean, else from the command-line option; counters start at 0 and -1 |
| Reporting.TestReporter.BeginTestCase | src/Reporting/TestReporter.php:67-74 | names the case, advances the case counter, returns the reporter itself, and makes a title due |
| Reporting.TestReporter.EndTestCase | src/Reporting/TestReporter.php:76-79 | forgets the case name and nothing else |
| Reporting.TestReporter.AddResult | src/Reporting/TestReporter.php:81-132 | prints the title only for the first result after `beginTestCase`, then the result line; with a title due and no case name it raises a TypeError and prints nothing |
| Reporting.TestReporter.ValueSuffix | src/Reporting/TestReporter.php:93-119 | the suffix computed with the object stack is the specified one, and the stack is as it was |
| Reporting.TestReporter.ResultLineText | src/Reporting/TestReporter.php:93-131 | the line echoed is `ResultLine`, and rendering leaves the reporter's state as it was |
| Reporting.TestReporter.FormatValue | src/Reporting/TestReporter.php:182-239 | the rendering through the reporter's object stack equals the pure rendering, and the stack is as it was on return |
| Reporting.TestReporter.AddError | src/Reporting/TestReporter.php:134-139 | prints the method name, message and trace, then halts |
| Reporting.TestReporter.SetSkipped | src/Reporting/TestReporter.php:141-146 | prints the method name and reason, then halts |
| Reporting.TestReporter.FormatObject | src/Reporting/TestReporter.php:241-258 | pushes and pops the object so the stack is unchanged on return, and yields the specified rendering |
| Reporting.TestReporter.FormatProperties | src/Reporting/TestReporter.php:260-271 | the loop collects one line per property in order, and the joined lines are the specified rendering |
| Reporting.TestReporter.FormatArrayValues | src/Reporting/TestReporter.php:273-286 | the loop collects one line per entry in order, and the joined lines are the specified rendering |
| Reporting.TestReporter.FormatDiff | src/Reporting/TestReporter.php:338-356 | the loop over the diff nodes renders the specified coloured text |
| Assertions.OutermostLocating | src/Tester.php:158-171 | picks the outermost frame that is not the runner's and lies in the test file, or none when no frame does |
| Assertions.Trace | src/Tester.php:152-174 | the countdown loop returns that frame's file and line, and no file exactly when no frame qualifies |
| Assertions.NewResult | src/Tester.php:118-145 | the result carries the given verdict, type, context, message, value and expected flags, and a file exactly when a frame qualifies |
| Assertions.FirstMismatch | src/Tester.php:85-90 | finds the first pattern that does not match, with every earlier one matching, or none |
| Assertions.FirstMismatchIs | src/Tester.php:85-89 | a pattern that fails after all earlier ones matched is the one reported |
| Assertions.ExpectVerdict | src/Tester.php:79-103 | `expect` passes exactly when an exception of the type was thrown and every pattern matches; the exception is attached exactly when it has the type |
| Assertions.ExpectMessages | src/Tester.php:79-103 | the messages for no exception, a wrong type, and the first mismatching pattern |
| Assertions.Tester.constructor | src/Tester.php:37-41 | binds the test file; nothing has been sent |
| Assertions.Tester.AddResult | src/Tester.php:118-145 | sends exactly one located result to the case |
| Assertions.Tester.Ok | src/Tester.php:50-57 | sends one `ok` result, with a value only when one was passed |
| Assertions.Tester.Eq | src/Tester.php:66-69 | sends one `eq` result that passes exactly when the values are identical, recording both |
| Assertions.Tester.Expect | src/Tester.php:79-103 | sends exactly the one result `ExpectResult` describes and does not propagate the exception |
| Results.StepSetsOnFailure | src/TestResult.php:21-41 | one call sets the flag exactly when it is a failed assertion or an error, and never clears it |
| Results.FoldFailsIffSomeCallFails | src/TestResult.php:19-46 | after any calls the flag is set exactly when it was set before or some call failed |
| Results.FoldMonotone | src/TestResult.php:19-46 | once set, no sequence of calls clears the flag |
| Results.TestResult.constructor | src/TestResult.php:19 | a fresh result has no errors |
| Results.TestResult.AddResult | src/TestResult.php:21-26 | a failed assertion sets the flag, a passing one leaves it |
| Results.TestResult.AddError | src/TestResult.php:28-31 | an error always sets the flag |
| Results.TestResult.SetSkipped | src/TestResult.php:33-36 | skipping leaves the flag |
| Results.TestResult.SetDisabled | src/TestResult.php:38-41 | disabling leaves the flag |
| Suites.Names | src/TestCase.php:37-40 | the names of the cases, position by position |
| Suites.NamesOfAppended | src/TestSuite.php:47-50 | adding a case appends its name, and a repeated name occurs once more |
| Suites.TestSuite.constructor | src/TestSuite.php:35-39 | stores name and properties, with no cases |
| Suites.TestSuite.Add | src/TestSuite.php:47-50 | appends exactly one case with the given name and function; earlier cases stay, and name and properties are constants |
| Recording.Guard | src/Recording/TestRecorder.php:34-74 | which call raises in which state: a second suite or case while one is open, ending a suite or case that is not open, ending a case without a suite |
| Recording.NestedSuiteRefused | src/Recording/TestRecorder.php:36-38 | beginning a suite while one is open raises with the open suite's name |
| Recording.RecordedTestCase.constructor | src/Recording/RecordedTestCase.php:41-45 | fixes name and class name; no results, errors uninitialised, both reasons null |
| Recording.RecordedTestCase.AddResult | src/Recording/RecordedTestCase.php:57-60 | appends the result at the end and changes nothing else |
| Recording.RecordedTestCase.AddError | src/Recording/RecordedTestCase.php:70-73 | appends the error at the end, creating the list on the first error |
| Recording.RecordedTestCase.SetSkipped | src/Recording/RecordedTestCase.php:83-86 | overwrites the skip reason (last write wins) |
| Recording.RecordedTestCase.SetDisabled | src/Recording/RecordedTestCase.php:93-96 | overwrites the disable reason (last write wins) |
| Recording.RecordedTestSuite.constructor | src/Recording/RecordedTestSuite.php:24-28 | stores name and properties, with no cases |
| Recording.RecordedTestSuite.AddCase | src/Recording/RecordedTestSuite.php:30-33 | appends exactly one case at the end |
| Recording.TestRecorder.constructor | src/Recording/TestRecorder.php:32 | starts with nothing open and no suites |
| Recording.TestRecorder.BeginTestSuite | src/Recording/TestRecorder.php:34-41 | raises and changes nothing while a suite is open; otherwise opens a fresh empty suite with the name and properties |
| Recording.TestRecorder.EndTestSuite | src/Recording/TestRecorder.php:43-52 | raises with no open suite; otherwise appends it to the suites and closes it |
| Recording.TestRecorder.BeginTestCase | src/Recording/TestRecorder.php:54-63 | raises while a case is open; otherwise opens a fresh case, with no results, no errors and neither skipped nor disabled, and returns that same object |
| Recording.TestRecorder.EndTestCase | src/Recording/TestRecorder.php:65-74 | raises with no open case, or with no open suite; otherwise adds the case to the open suite and closes it |
| Runner.StrictHandlerMonotone | src/TestRunner.php:51-57 | a wider reporting mask raises for every error a narrower one raises for |
| Runner.ResultCalls | src/TestRunner.php:72 | one `addResult` call per result the test function reported, in order |
| Runner.TestRunner.constructor | src/TestRunner.php:16-21 | strict on, rethrow off |
| Runner.TestRunner.Run | src/TestRunner.php:44-86 | the calls made to the listener and the abort raised are those of `RunSpec` |
| Runner.TestRunner.RunAll | src/TestRunner.php:62-84 | the loop over the tests makes the calls of `RunCases` and stops where it aborts |
| Runner.TestRunner.RunCase | src/TestRunner.php:63-79 | one test: begin, the body's results, the error if it threw, end |
| RunProperties.AbortAtFirstError | src/TestRunner.php:75-83 | the run aborts exactly when `throw` is set and some test throws; it stops at the first such test, with the wrapping message naming it; otherwise every test runs |
| RunProperties.CasesInOrder | src/TestRunner.php:62-84 | the cases begun are the tests run, by name in suite order; each is ended once; the errors reported are exactly the escaping ones, one per throwing test |
| RunProperties.NoAbortWithoutThrow | src/TestRunner.php:81-83 | without `throw` every test runs and nothing is raised |
| RunProperties.ViewsOfCase | src/TestRunner.php:63-79 | one test begins once, ends once, and reports its escaping error once |
| RunProperties.SuiteBracket | src/TestRunner.php:60-86 | `beginTestSuite` comes first and once; `endTestSuite` comes last exactly when the run does not abort; an aborted run ends on `endTestCase` |
| RunProperties.CasesAreCaseLevel | src/TestRunner.php:62-84 | between the suite calls the runner makes only case brackets and calls on a case, and an aborted run's last call is `endTestCase` |
| RunProperties.RunViews | src/TestRunner.php:60-86 | the same counts hold for the whole run, suite calls included |
| RunProperties.RecorderAcceptsRun | src/TestRunner.php:60-86 | the recording listener never raises on a run; a completed run leaves it idle, an aborted one leaves the suite open |
| RunProperties.RecorderAcceptsCase | src/TestRunner.php:63-79 | with a suite open, the recording listener accepts one test's calls and is left as it was |
| RunProperties.RecorderAcceptsCases | src/TestRunner.php:62-84 | with a suite open, the recording listener accepts the calls of every test the run reaches and is left as it was |
| RunProperties.CaseVerdict | src/TestResult.php:21-31 | a result listener fed one test's calls fails exactly when an assertion failed or the test threw |

## Left out

- Floats (`sprintf("%.6g")`), resources and callables in `formatValue` are not modelled. They need a float printer and runtime type inspection.
- `getTraceAsString` is an input: a throwable carries its rendered trace as a string.
- `getObjectProperties` lists a `stdClass` instance's properties by an array cast and any other object's by reflection. An object's properties are an input sequence, in the order the cast or reflection lists them.
- `diff` finds matching lines with `array_keys($new, $ovalue)`, which uses PHP's loose `==`, so `"1"` and `"01"` match. The model compares lines exactly.
- Value identity (`===`, `in_array(..., true)`) is Dafny equality on `Value`, with objects identified by their id. PHP compares objects by handle and arrays by key and type, which the datatype only approximates.
- `printSummary` reads fields that do not exist and is not modelled.
- `beginTestSuite`/`endTestSuite` on the reporter are empty and are not modelled.
- The reporter's `verbose` flag is read only by a branch whose body is commented out (the quiet mode of `addResult`), so it changes nothing. The command-line fallback (`enabled`, which wraps `getopt`) is a parameter.
- `die()` in `addError`/`setSkipped` is modelled as the `halted` flag. The model does not stop the process.
- `debug_backtrace` and `ReflectionFunction::getFileName` are inputs: a frame list and the test file.
- `instanceof` and `preg_match` are uninterpreted predicates passed to `expect`. Calling the test function is its outcome.
- Assertions.Trace: when no frame qualifies, `trace` reads an undefined `$file`. Under the runner's strict error handler (on by default) that warning is thrown as an ErrorException out of `ok`, `eq` or `expect`, so no result is sent and the test reports an error. The model returns no file and no line, which is what happens without the strict handler.
- `set_error_handler`/`restore_error_handler` are global state. Only the handler's decision is modelled.
- `TestRunner` calls `$suite->getTests()`, which `TestSuite` does not define (it has `getTestCases`). It also builds `new Tester(new TestResultBuilder(...), $case)`, which does not match the Tester constructor. The model reads the suite's cases and has the tester report to the case.
- `run` is declared to return a bool but returns nothing. Coverage output and `printSummary` are calls to undefined members. None of these is modelled.
- `CompositeTestListener` comes from an external package. It is modelled as one log of the calls.
- `TestRunner::enabled` wraps `getopt` and is not modelled.
- `Recording.RecordedTestCase.GetErrors` and `Recording.RecordedTestCase.GetClassName` have declared return types that fail on an uninitialised or null field. They are modelled with a precondition instead of a TypeError.
- src/TestResultBuilder.php, header.php, src/TestConfiguration.php, src/TestDriver.php, src/TestServer.php and src/test.func.php are not part of this model: they are a superseded builder, process-wide configuration, coverage wiring, subprocess control and command-line helpers.
- ValueFormat.FormatValue: integers print as their exact decimal digits. On PHP versions whose `number_format` takes a float (7.x and 8.0 to 8.2), an integer beyond ±2^53 is first rounded to the nearest float, so PHP_INT_MAX prints as 9223372036854775808. The model does not round.
- Assertions.Tester.Expect: the function passed to `expect` is represented by its outcome, the error it throws or none. Assertions that the function itself makes through the tester are sent before `expect`'s own result. The model does not capture them.
- PHP integers are 64-bit. Integers are unbounded in the model. The only integer arithmetic modelled is the case counter and printing, where wrap-around does not arise in practice.
