/**
 * The suite loop of the test runner. The listeners (fanned out by a composite
 * listener) are modelled as one log of the calls they receive, and each test
 * function as the outcome of calling it: the results its tester reported and,
 * possibly, the throwable that escaped from it.
 */
module Runner {
  import opened TestInterop
  import opened Suites
  import Results
  import Recording

  /** What calling a test function shows the runner: reported results, then perhaps an escaping throwable. */
  datatype BodyRun = BodyRun(results: seq<AssertionResult>, thrown: Option<Throwable>)

  /** The exception the run raises when `throw` is set: its message and the error it wraps. */
  datatype Abort = Abort(message: string, previous: Throwable)

  /** The listener calls of a run, and the exception it ended with, if any. */
  datatype Trace = Trace(events: seq<ListenerEvent>, abort: Option<Abort>)

  const AbortPrefix: string := "Exception while running test: "

  // ---------------------------------------------------------------------------
  // The strict error handler

  /** What the strict error handler does with a PHP error. */
  datatype HandlerOutcome = Raise(message: string, severity: bv64) | Handled

  /** The handler raises an ErrorException when the severity shares a bit with the reporting mask. */
  function StrictHandler(severity: bv64, message: string, reporting: bv64): HandlerOutcome
  {
    if severity & reporting != 0 then Raise(message, severity) else Handled
  }

  /** A reporting mask with more bits raises for every error a narrower one raises for. */
  lemma StrictHandlerMonotone(severity: bv64, message: string, reporting: bv64, wider: bv64)
    requires reporting & wider == reporting
    ensures StrictHandler(severity, message, reporting).Raise? ==> StrictHandler(severity, message, wider).Raise?
  {
  }

  // ---------------------------------------------------------------------------
  // The calls the listener receives

  /** One `addResult` call per reported result, in order. */
  function ResultCalls(results: seq<AssertionResult>): (calls: seq<CaseEvent>)
    ensures |calls| == |results|
    ensures forall k :: 0 <= k < |results| ==> calls[k] == ResultAdded(results[k])
  {
    if results == [] then [] else [ResultAdded(results[0])] + ResultCalls(results[1..])
  }

  /** The calls made on the case handle for a body's outcome: each result, then the error. */
  function CaseCalls(run: BodyRun): seq<CaseEvent>
  {
    ResultCalls(run.results) + (if run.thrown.Some? then [ErrorAdded(run.thrown.value)] else [])
  }

  function OnCases(calls: seq<CaseEvent>): (es: seq<ListenerEvent>)
    ensures |es| == |calls|
    ensures forall k :: 0 <= k < |calls| ==> es[k] == OnCase(calls[k])
  {
    if calls == [] then [] else [OnCase(calls[0])] + OnCases(calls[1..])
  }

  /** One test case: begun by name, its calls, ended. */
  function CaseEvents(t: TestCase, run: BodyRun): seq<ListenerEvent>
  {
    [CaseBegun(t.name, None)] + OnCases(CaseCalls(run)) + [CaseEnded]
  }

  /** The cases in order, stopping after the first one whose body throws when `throwErrors` is set. */
  function RunCases(cases: seq<TestCase>, body: TestFunction -> BodyRun, throwErrors: bool): Trace
    decreases cases
  {
    if cases == [] then Trace([], None)
    else
      var run := body(cases[0].body);
      var here := CaseEvents(cases[0], run);
      if throwErrors && run.thrown.Some? then
        Trace(here, Some(Abort(AbortPrefix + cases[0].name, run.thrown.value)))
      else
        var rest := RunCases(cases[1..], body, throwErrors);
        Trace(here + rest.events, rest.abort)
  }

  /** The whole run: the suite is begun, the cases run, and the suite is ended unless the run aborted. */
  function RunSpec(name: string, properties: seq<Entry>, cases: seq<TestCase>,
                   body: TestFunction -> BodyRun, throwErrors: bool): Trace
  {
    var t := RunCases(cases, body, throwErrors);
    Trace([SuiteBegun(name, properties)] + t.events + (if t.abort.None? then [SuiteEnded] else []), t.abort)
  }

  // ---------------------------------------------------------------------------
  // The listener as a log, and the runner

  class EventLog {
    var events: seq<ListenerEvent>

    constructor()
      ensures events == []
    {
      events := [];
    }

    method BeginTestSuite(name: string, properties: seq<Entry>)
      modifies this
      ensures events == old(events) + [SuiteBegun(name, properties)]
    {
      events := events + [SuiteBegun(name, properties)];
    }

    method BeginTestCase(name: string)
      modifies this
      ensures events == old(events) + [CaseBegun(name, None)]
    {
      events := events + [CaseBegun(name, None)];
    }

    /** The calls a test function makes on its case through its tester. */
    method Receive(calls: seq<CaseEvent>)
      modifies this
      ensures events == old(events) + OnCases(calls)
    {
      events := events + OnCases(calls);
    }

    method AddError(e: Throwable)
      modifies this
      ensures events == old(events) + [OnCase(ErrorAdded(e))]
    {
      events := events + [OnCase(ErrorAdded(e))];
    }

    method EndTestCase()
      modifies this
      ensures events == old(events) + [CaseEnded]
    {
      events := events + [CaseEnded];
    }

    method EndTestSuite()
      modifies this
      ensures events == old(events) + [SuiteEnded]
    {
      events := events + [SuiteEnded];
    }
  }

  class TestRunner {
    var strict: bool
    var throw: bool

    /** Strict error handling on, rethrowing off. */
    constructor()
      ensures strict && !throw
    {
      strict := true;
      throw := false;
    }

    /**
     * Runs the suite's cases in order against the listener log; the calls logged
     * and the exception raised, if any, are those of `RunSpec`.
     */
    method Run(suite: TestSuite, body: TestFunction -> BodyRun, listener: EventLog) returns (abort: Option<Abort>)
      modifies listener
      ensures var t := RunSpec(suite.name, suite.properties, suite.testCases, body, throw);
              listener.events == old(listener.events) + t.events && abort == t.abort
    {
      ghost var start := listener.events;
      ghost var full := RunCases(suite.testCases, body, throw);
      listener.BeginTestSuite(suite.name, suite.properties);
      abort := RunAll(suite.testCases, body, listener);
      ghost var tail: seq<ListenerEvent> := if abort.None? then [SuiteEnded] else [];
      if abort.None? {
        listener.EndTestSuite();
      }
      ConcatAssoc(start, [SuiteBegun(suite.name, suite.properties)], full.events);
      ConcatAssoc(start, [SuiteBegun(suite.name, suite.properties)] + full.events, tail);
    }

    /** The loop over the cases: it stops right after the first erroring case when `throw` is set. */
    method RunAll(cases: seq<TestCase>, body: TestFunction -> BodyRun, listener: EventLog) returns (abort: Option<Abort>)
      modifies listener
      ensures listener.events == old(listener.events) + RunCases(cases, body, throw).events
      ensures abort == RunCases(cases, body, throw).abort
    {
      var throwErrors := throw;
      ghost var full := RunCases(cases, body, throwErrors);
      ghost var start := listener.events;
      ghost var done: seq<ListenerEvent> := [];
      var i := 0;
      while i < |cases|
        invariant 0 <= i <= |cases|
        invariant listener.events == start + done
        invariant done + RunCases(cases[i..], body, throwErrors).events == full.events
        invariant RunCases(cases[i..], body, throwErrors).abort == full.abort
      {
        var run := RunCase(cases[i], body, listener);
        ConcatAssoc(start, done, CaseEvents(cases[i], run));
        Advance(cases, i, body, throwErrors, run, done, full);
        if run.thrown.Some? && throwErrors {
          return Some(Abort(AbortPrefix + cases[i].name, run.thrown.value));
        }
        done := done + CaseEvents(cases[i], run);
        i := i + 1;
      }
      assert cases[i..] == [];
      abort := None;
    }

    /** One iteration: begin the case, call its function, record an escaping error, end the case. */
    method RunCase(test: TestCase, body: TestFunction -> BodyRun, listener: EventLog) returns (run: BodyRun)
      modifies listener
      ensures run == body(test.body)
      ensures listener.events == old(listener.events) + CaseEvents(test, run)
    {
      ghost var before := listener.events;
      listener.BeginTestCase(test.name);
      run := body(test.body);
      listener.Receive(ResultCalls(run.results));
      ghost var received := listener.events;
      if run.thrown.Some? {
        listener.AddError(run.thrown.value);
      }
      assert listener.events == received + (if run.thrown.Some? then [OnCase(ErrorAdded(run.thrown.value))] else []);
      listener.EndTestCase();
      CaseEventsSplit(test, run, before);
    }
  }

  /** `RunCases` on the cases from `i` on, unfolded once, given the outcome of case `i`. */
  lemma RunCasesAt(cases: seq<TestCase>, i: nat, body: TestFunction -> BodyRun, throwErrors: bool, run: BodyRun)
    requires i < |cases| && run == body(cases[i].body)
    ensures var now := RunCases(cases[i..], body, throwErrors);
            throwErrors && run.thrown.Some? ==>
              now.events == CaseEvents(cases[i], run) &&
              now.abort == Some(Abort(AbortPrefix + cases[i].name, run.thrown.value))
    ensures var now, rest := RunCases(cases[i..], body, throwErrors), RunCases(cases[i + 1..], body, throwErrors);
            !(throwErrors && run.thrown.Some?) ==>
              now.events == CaseEvents(cases[i], run) + rest.events && now.abort == rest.abort
  {
    assert cases[i..][0] == cases[i] && cases[i..][1..] == cases[i + 1..];
  }

  /** One more case run: the events logged so far grow by that case's events, or the run ends. */
  lemma Advance(cases: seq<TestCase>, i: nat, body: TestFunction -> BodyRun, throwErrors: bool,
                run: BodyRun, done: seq<ListenerEvent>, full: Trace)
    requires i < |cases| && run == body(cases[i].body)
    requires done + RunCases(cases[i..], body, throwErrors).events == full.events
    requires RunCases(cases[i..], body, throwErrors).abort == full.abort
    ensures throwErrors && run.thrown.Some? ==>
              done + CaseEvents(cases[i], run) == full.events &&
              full.abort == Some(Abort(AbortPrefix + cases[i].name, run.thrown.value))
    ensures !(throwErrors && run.thrown.Some?) ==>
              (done + CaseEvents(cases[i], run)) + RunCases(cases[i + 1..], body, throwErrors).events == full.events &&
              RunCases(cases[i + 1..], body, throwErrors).abort == full.abort
  {
    RunCasesAt(cases, i, body, throwErrors, run);
    if !(throwErrors && run.thrown.Some?) {
      ConcatAssoc(done, CaseEvents(cases[i], run), RunCases(cases[i + 1..], body, throwErrors).events);
    }
  }

  lemma OnCasesConcat(a: seq<CaseEvent>, b: seq<CaseEvent>)
    ensures OnCases(a + b) == OnCases(a) + OnCases(b)
  {
  }

  /** Logging a case piece by piece logs its events. */
  lemma CaseEventsSplit(test: TestCase, run: BodyRun, before: seq<ListenerEvent>)
    ensures before + [CaseBegun(test.name, None)] + OnCases(ResultCalls(run.results)) +
            (if run.thrown.Some? then [OnCase(ErrorAdded(run.thrown.value))] else []) + [CaseEnded] ==
            before + CaseEvents(test, run)
  {
    var err: seq<CaseEvent> := if run.thrown.Some? then [ErrorAdded(run.thrown.value)] else [];
    var logged: seq<ListenerEvent> := if run.thrown.Some? then [OnCase(ErrorAdded(run.thrown.value))] else [];
    var results := OnCases(ResultCalls(run.results));
    var begin := [CaseBegun(test.name, None)];
    assert OnCases(err) == logged;
    calc {
      before + CaseEvents(test, run);
      before + (begin + OnCases(ResultCalls(run.results) + err) + [CaseEnded]);
      { OnCasesConcat(ResultCalls(run.results), err); }
      before + (begin + (results + logged) + [CaseEnded]);
      { ConcatAssoc(begin, results, logged); }
      before + ((begin + results + logged) + [CaseEnded]);
      { ConcatAssoc(before, begin + results + logged, [CaseEnded]); }
      (before + (begin + results + logged)) + [CaseEnded];
      { ConcatAssoc(before, begin + results, logged); }
      (before + (begin + results)) + logged + [CaseEnded];
      { ConcatAssoc(before, begin, results); }
      before + begin + results + logged + [CaseEnded];
    }
  }
}
