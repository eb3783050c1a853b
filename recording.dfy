/**
 * The recording listener: it keeps every suite, case, result and error it is
 * told about, and refuses calls that arrive out of order with a LogicException.
 * The recorder's acceptance is summarised by a phase (which suite and which case
 * are open, by name) and a pure guard; each method is proved against them.
 */
module Recording {
  import opened TestInterop

  /** What the recorder raises instead of recording. */
  datatype Failure =
    | LogicException(message: string)
      /** PHP's Error for calling a method on null: `callee` is the method named. */
    | CallOnNull(callee: string)

  /** Which suite and which case the recorder holds open, by name. */
  datatype Phase = Phase(suite: Option<string>, openCase: Option<string>)

  const Idle: Phase := Phase(None, None)

  /** The failure a listener call raises in a given phase, if any. */
  function Guard(p: Phase, e: ListenerEvent): (f: Option<Failure>)
    ensures e.OnCase? ==> f.None?
    ensures e.SuiteBegun? ==> (f.Some? <==> p.suite.Some?)
    ensures e.CaseBegun? ==> (f.Some? <==> p.openCase.Some?)
    ensures e.SuiteEnded? ==> (f.Some? <==> p.suite.None?)
    ensures e.CaseEnded? ==> (f.Some? <==> p.openCase.None? || p.suite.None?)
  {
    match e
    case SuiteBegun(_, _) =>
      if p.suite.Some? then Some(LogicException("Another Test Suite is already active: " + p.suite.value))
      else None
    case SuiteEnded =>
      if p.suite.None? then Some(LogicException("No Test Suite is currently active.")) else None
    case CaseBegun(_, _) =>
      if p.openCase.Some? then Some(LogicException("Another Test Case is already active: " + p.openCase.value))
      else None
    case CaseEnded =>
      if p.openCase.None? then Some(LogicException(""))
      else if p.suite.None? then Some(CallOnNull("addCase"))
      else None
    case OnCase(_) => None
  }

  /** The phase after a call the guard lets through. */
  function Next(p: Phase, e: ListenerEvent): Phase
  {
    match e
    case SuiteBegun(name, _) => p.(suite := Some(name))
    case SuiteEnded => p.(suite := None)
    case CaseBegun(name, _) => p.(openCase := Some(name))
    case CaseEnded => p.(openCase := None)
    case OnCase(_) => p
  }

  /** The phase after a sequence of calls, or `None` once one of them raises. */
  function Replay(p: Phase, es: seq<ListenerEvent>): Option<Phase>
    decreases es
  {
    if es == [] then Some(p)
    else if Guard(p, es[0]).Some? then None
    else Replay(Next(p, es[0]), es[1..])
  }

  /** Replaying two sequences one after the other is replaying their concatenation. */
  lemma {:induction false} ReplayConcat(p: Phase, a: seq<ListenerEvent>, b: seq<ListenerEvent>)
    ensures Replay(p, a + b) == (if Replay(p, a).Some? then Replay(Replay(p, a).value, b) else None)
    decreases a
  {
    if a != [] {
      assert (a + b)[0] == a[0];
      assert (a + b)[1..] == a[1..] + b;
      if Guard(p, a[0]).None? {
        ReplayConcat(Next(p, a[0]), a[1..], b);
      }
    } else {
      assert a + b == b;
    }
  }

  /** A second suite cannot begin before the first has ended, whatever the names. */
  lemma NestedSuiteRefused(a: string, b: string, props: seq<Entry>)
    ensures Replay(Idle, [SuiteBegun(a, props), SuiteBegun(b, props)]) == None
    ensures Guard(Phase(Some(a), None), SuiteBegun(b, props)) ==
            Some(LogicException("Another Test Suite is already active: " + a))
  {
  }

  class RecordedTestCase {
    const name: string
    const className: Option<string>
    var results: seq<AssertionResult>
    /** `None` until the first error: the PHP property starts uninitialised. */
    var errors: Option<seq<Throwable>>
    var reasonSkipped: Option<string>
    var reasonDisabled: Option<string>

    /** Fixes the name and class name; nothing is recorded yet. */
    constructor(name: string, className: Option<string>)
      ensures this.name == name && this.className == className
      ensures results == [] && errors == None
      ensures reasonSkipped == None && reasonDisabled == None
    {
      this.name := name;
      this.className := className;
      results := [];
      errors := None;
      reasonSkipped := None;
      reasonDisabled := None;
    }

    function GetName(): string
    {
      name
    }

    /** Declared to return a string, so it may be called only when a class name was given. */
    function GetClassName(): string
      requires className.Some?
    {
      className.value
    }

    /** Appends the result at the end; nothing else changes. */
    method AddResult(r: AssertionResult)
      modifies this
      ensures results == old(results) + [r]
      ensures errors == old(errors)
      ensures reasonSkipped == old(reasonSkipped) && reasonDisabled == old(reasonDisabled)
    {
      results := results + [r];
    }

    function GetResults(): seq<AssertionResult>
      reads this
    {
      results
    }

    /** Appends the error at the end, creating the list on the first error. */
    method AddError(e: Throwable)
      modifies this
      ensures errors == Some(old(errors).GetOr([]) + [e])
      ensures results == old(results)
      ensures reasonSkipped == old(reasonSkipped) && reasonDisabled == old(reasonDisabled)
    {
      errors := Some(errors.GetOr([]) + [e]);
    }

    /** Declared to return an array, so it may be called only after some error was added. */
    function GetErrors(): seq<Throwable>
      reads this
      requires errors.Some?
    {
      errors.value
    }

    /** Overwrites the skip reason: the last call wins. */
    method SetSkipped(reason: string)
      modifies this
      ensures reasonSkipped == Some(reason)
      ensures results == old(results) && errors == old(errors) && reasonDisabled == old(reasonDisabled)
    {
      reasonSkipped := Some(reason);
    }

    function GetReasonSkipped(): Option<string>
      reads this
    {
      reasonSkipped
    }

    /** Overwrites the disable reason: the last call wins. */
    method SetDisabled(reason: string)
      modifies this
      ensures reasonDisabled == Some(reason)
      ensures results == old(results) && errors == old(errors) && reasonSkipped == old(reasonSkipped)
    {
      reasonDisabled := Some(reason);
    }

    function GetReasonDisabled(): Option<string>
      reads this
    {
      reasonDisabled
    }
  }

  class RecordedTestSuite {
    const name: string
    const properties: seq<Entry>
    var cases: seq<RecordedTestCase>

    /** Stores the name and the properties; no case is recorded yet. */
    constructor(name: string, properties: seq<Entry>)
      ensures this.name == name && this.properties == properties
      ensures cases == []
    {
      this.name := name;
      this.properties := properties;
      cases := [];
    }

    /** Appends exactly one case at the end. */
    method AddCase(c: RecordedTestCase)
      modifies this
      ensures cases == old(cases) + [c]
    {
      cases := cases + [c];
    }

    function GetName(): string
    {
      name
    }

    function GetProperties(): seq<Entry>
    {
      properties
    }

    function GetCases(): seq<RecordedTestCase>
      reads this
    {
      cases
    }
  }

  class TestRecorder {
    var suite: RecordedTestSuite?
    var openCase: RecordedTestCase?
    var suites: seq<RecordedTestSuite>

    /** The open suite is not yet among the finished ones, and the open case not yet in it. */
    ghost predicate Valid()
      reads this, suite
    {
      (suite != null ==> suite !in suites) &&
      (suite != null && openCase != null ==> openCase !in suite.cases)
    }

    /** The recorder's state as the guard sees it. */
    function CurrentPhase(): Phase
      reads this
    {
      Phase(if suite == null then None else Some(suite.name),
            if openCase == null then None else Some(openCase.name))
    }

    constructor()
      ensures Valid() && CurrentPhase() == Idle
      ensures suites == []
    {
      suite := null;
      openCase := null;
      suites := [];
    }

    /** Opens a fresh suite, unless one is open already. */
    method BeginTestSuite(name: string, properties: seq<Entry>) returns (failure: Option<Failure>)
      requires Valid()
      modifies this
      ensures Valid()
      ensures failure == Guard(old(CurrentPhase()), SuiteBegun(name, properties))
      ensures failure.None? ==> CurrentPhase() == Next(old(CurrentPhase()), SuiteBegun(name, properties))
      ensures failure.Some? ==> unchanged(this)
      ensures failure.None? ==>
                fresh(suite) && suite.name == name && suite.properties == properties && suite.cases == [] &&
                openCase == old(openCase) && suites == old(suites)
    {
      if suite != null {
        failure := Some(LogicException("Another Test Suite is already active: " + suite.name));
        return;
      }
      suite := new RecordedTestSuite(name, properties);
      failure := None;
    }

    /** Files the open suite after the finished ones and closes it. */
    method EndTestSuite() returns (failure: Option<Failure>)
      requires Valid()
      modifies this
      ensures Valid()
      ensures failure == Guard(old(CurrentPhase()), SuiteEnded)
      ensures failure.None? ==> CurrentPhase() == Next(old(CurrentPhase()), SuiteEnded)
      ensures failure.Some? ==> unchanged(this)
      ensures failure.None? ==> suites == old(suites) + [old(suite)] && suite == null && openCase == old(openCase)
    {
      if suite == null {
        failure := Some(LogicException("No Test Suite is currently active."));
        return;
      }
      suites := suites + [suite];
      suite := null;
      failure := None;
    }

    /** Opens a fresh case and hands it back, unless one is open already. */
    method BeginTestCase(name: string, className: Option<string>)
      returns (failure: Option<Failure>, handle: RecordedTestCase?)
      requires Valid()
      modifies this
      ensures Valid()
      ensures failure == Guard(old(CurrentPhase()), CaseBegun(name, className))
      ensures failure.None? ==> CurrentPhase() == Next(old(CurrentPhase()), CaseBegun(name, className))
      ensures failure.Some? ==> unchanged(this) && handle == null
      ensures failure.None? ==>
                fresh(handle) && handle == openCase && handle.name == name && handle.className == className &&
                handle.results == [] && handle.errors == None &&
                handle.reasonSkipped == None && handle.reasonDisabled == None &&
                suite == old(suite) && suites == old(suites)
    {
      if openCase != null {
        failure := Some(LogicException("Another Test Case is already active: " + openCase.name));
        handle := null;
        return;
      }
      openCase := new RecordedTestCase(name, className);
      handle := openCase;
      failure := None;
    }

    /** Files the open case in the open suite and closes it. */
    method EndTestCase() returns (failure: Option<Failure>)
      requires Valid()
      modifies this, suite
      ensures Valid()
      ensures failure == Guard(old(CurrentPhase()), CaseEnded)
      ensures failure.None? ==> CurrentPhase() == Next(old(CurrentPhase()), CaseEnded)
      ensures failure.Some? ==> unchanged(this) && (old(suite) != null ==> unchanged(old(suite)))
      ensures failure.None? ==>
                suite == old(suite) && suite.cases == old(suite.cases) + [old(openCase)] &&
                openCase == null && suites == old(suites)
    {
      if openCase == null {
        failure := Some(LogicException(""));
        return;
      }
      if suite == null {
        failure := Some(CallOnNull("addCase"));
        return;
      }
      suite.AddCase(openCase);
      openCase := null;
      failure := None;
    }

    function GetSuites(): seq<RecordedTestSuite>
      reads this
    {
      suites
    }
  }
}
