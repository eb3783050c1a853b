/**
 * What a run of a suite promises its listeners, stated over `RunSpec`, the
 * function the runner's loop is proved against: the suite bracket, the order of
 * the cases, one `addError` per escaping error, the abort when `throw` is set,
 * that the recording listener accepts the calls, and the verdict a result
 * listener reaches for one case.
 */
module RunProperties {
  import opened TestInterop
  import opened Suites
  import opened Runner
  import Results
  import Recording

  // ---------------------------------------------------------------------------
  // Views of a call log

  /** The names of the cases begun, in order. */
  function Began(es: seq<ListenerEvent>): seq<string>
    decreases es
  {
    if es == [] then []
    else (if es[0].CaseBegun? then [es[0].caseName] else []) + Began(es[1..])
  }

  /** How many cases were ended. */
  function Ended(es: seq<ListenerEvent>): nat
    decreases es
  {
    if es == [] then 0 else (if es[0].CaseEnded? then 1 else 0) + Ended(es[1..])
  }

  /** The errors reported through `addError`, in order. */
  function Errors(es: seq<ListenerEvent>): seq<Throwable>
    decreases es
  {
    if es == [] then []
    else (if es[0].OnCase? && es[0].call.ErrorAdded? then [es[0].call.error] else []) + Errors(es[1..])
  }

  predicate CaseLevel(e: ListenerEvent)
  {
    e.CaseBegun? || e.OnCase? || e.CaseEnded?
  }

  lemma {:induction false} BeganOfConcat(a: seq<ListenerEvent>, b: seq<ListenerEvent>)
    ensures Began(a + b) == Began(a) + Began(b)
    decreases a
  {
    if a == [] {
      assert a + b == b;
    } else {
      assert (a + b)[0] == a[0] && (a + b)[1..] == a[1..] + b;
      BeganOfConcat(a[1..], b);
    }
  }

  lemma {:induction false} EndedOfConcat(a: seq<ListenerEvent>, b: seq<ListenerEvent>)
    ensures Ended(a + b) == Ended(a) + Ended(b)
    decreases a
  {
    if a == [] {
      assert a + b == b;
    } else {
      assert (a + b)[0] == a[0] && (a + b)[1..] == a[1..] + b;
      EndedOfConcat(a[1..], b);
    }
  }

  lemma {:induction false} ErrorsOfConcat(a: seq<ListenerEvent>, b: seq<ListenerEvent>)
    ensures Errors(a + b) == Errors(a) + Errors(b)
    decreases a
  {
    if a == [] {
      assert a + b == b;
    } else {
      assert (a + b)[0] == a[0] && (a + b)[1..] == a[1..] + b;
      ErrorsOfConcat(a[1..], b);
    }
  }

  lemma ViewsOfConcat(a: seq<ListenerEvent>, b: seq<ListenerEvent>)
    ensures Began(a + b) == Began(a) + Began(b)
    ensures Ended(a + b) == Ended(a) + Ended(b)
    ensures Errors(a + b) == Errors(a) + Errors(b)
  {
    BeganOfConcat(a, b);
    EndedOfConcat(a, b);
    ErrorsOfConcat(a, b);
  }

  lemma {:induction false} ViewsOfOnCases(calls: seq<CaseEvent>)
    ensures Began(OnCases(calls)) == [] && Ended(OnCases(calls)) == 0
    decreases calls
  {
    if calls != [] {
      var es := OnCases(calls);
      ViewsOfOnCases(calls[1..]);
      assert es[1..] == OnCases(calls[1..]);
    }
  }

  lemma {:induction false} NoErrorsInResults(results: seq<AssertionResult>)
    ensures Errors(OnCases(ResultCalls(results))) == []
    decreases results
  {
    if results != [] {
      var es := OnCases(ResultCalls(results));
      NoErrorsInResults(results[1..]);
      assert es[1..] == OnCases(ResultCalls(results[1..]));
    }
  }

  /** The errors, among a list of cases, that escape from their bodies, in order. */
  function Thrown(cases: seq<TestCase>, body: TestFunction -> BodyRun): seq<Throwable>
    decreases cases
  {
    if cases == [] then []
    else
      var run := body(cases[0].body);
      (if run.thrown.Some? then [run.thrown.value] else []) + Thrown(cases[1..], body)
  }

  /** The four parts of a case's calls. */
  lemma CaseParts(t: TestCase, run: BodyRun)
    ensures CaseEvents(t, run) ==
            [CaseBegun(t.name, None)] + OnCases(ResultCalls(run.results)) +
            (if run.thrown.Some? then [OnCase(ErrorAdded(run.thrown.value))] else []) + [CaseEnded]
  {
    CaseEventsSplit(t, run, []);
    assert [] + CaseEvents(t, run) == CaseEvents(t, run);
  }

  /** One case: its name is begun, it is ended once, and its escaping error, if any, is reported once. */
  lemma ViewsOfCase(t: TestCase, run: BodyRun)
    ensures Began(CaseEvents(t, run)) == [t.name]
    ensures Ended(CaseEvents(t, run)) == 1
    ensures Errors(CaseEvents(t, run)) == if run.thrown.Some? then [run.thrown.value] else []
  {
    var begin: seq<ListenerEvent> := [CaseBegun(t.name, None)];
    var results := OnCases(ResultCalls(run.results));
    var logged: seq<ListenerEvent> := if run.thrown.Some? then [OnCase(ErrorAdded(run.thrown.value))] else [];
    CaseParts(t, run);
    ViewsOfOnCases(ResultCalls(run.results));
    NoErrorsInResults(run.results);
    BeganOfCase(begin, results, logged);
    EndedOfCase(begin, results, logged);
    ErrorsOfCase(begin, results, logged);
  }

  lemma BeganOfCase(begin: seq<ListenerEvent>, results: seq<ListenerEvent>, logged: seq<ListenerEvent>)
    requires |begin| == 1 && begin[0].CaseBegun? && Began(results) == []
    requires |logged| <= 1 && (logged != [] ==> logged[0].OnCase?)
    ensures Began(begin + results + logged + [CaseEnded]) == [begin[0].caseName]
  {
    BeganOfConcat(begin, results);
    BeganOfConcat(begin + results, logged);
    BeganOfConcat(begin + results + logged, [CaseEnded]);
    if logged != [] {
      assert Began(logged) == [] + Began(logged[1..]);
    }
  }

  lemma EndedOfCase(begin: seq<ListenerEvent>, results: seq<ListenerEvent>, logged: seq<ListenerEvent>)
    requires |begin| == 1 && begin[0].CaseBegun? && Ended(results) == 0
    requires |logged| <= 1 && (logged != [] ==> logged[0].OnCase?)
    ensures Ended(begin + results + logged + [CaseEnded]) == 1
  {
    EndedOfConcat(begin, results);
    EndedOfConcat(begin + results, logged);
    EndedOfConcat(begin + results + logged, [CaseEnded]);
    if logged != [] {
      assert Ended(logged) == 0 + Ended(logged[1..]);
    }
  }

  lemma ErrorsOfCase(begin: seq<ListenerEvent>, results: seq<ListenerEvent>, logged: seq<ListenerEvent>)
    requires |begin| == 1 && begin[0].CaseBegun? && Errors(results) == []
    ensures Errors(begin + results + logged + [CaseEnded]) == Errors(logged)
  {
    ErrorsOfConcat(begin, results);
    ErrorsOfConcat(begin + results, logged);
    ErrorsOfConcat(begin + results + logged, [CaseEnded]);
  }

  // ---------------------------------------------------------------------------
  // How far a run gets

  /** How many cases a run begins: all of them, or up to the first erroring one when `throw` is set. */
  function Ran(cases: seq<TestCase>, body: TestFunction -> BodyRun, throwErrors: bool): (n: nat)
    ensures n <= |cases|
    decreases cases
  {
    if cases == [] then 0
    else if throwErrors && body(cases[0].body).thrown.Some? then 1
    else 1 + Ran(cases[1..], body, throwErrors)
  }

  /**
   * The run aborts exactly when `throw` is set and some body throws. It then stops
   * at the first such case, with the wrapping message naming it and the escaped
   * error as the previous one; otherwise every case is run.
   */
  lemma {:induction false} AbortAtFirstError(cases: seq<TestCase>, body: TestFunction -> BodyRun, throwErrors: bool)
    ensures var t, n := RunCases(cases, body, throwErrors), Ran(cases, body, throwErrors);
            (t.abort.Some? <==> throwErrors && exists k :: 0 <= k < |cases| && body(cases[k].body).thrown.Some?) &&
            (t.abort.None? ==> n == |cases|) &&
            (t.abort.Some? ==>
               0 < n &&
               body(cases[n - 1].body).thrown.Some? &&
               (forall k :: 0 <= k < n - 1 ==> body(cases[k].body).thrown.None?) &&
               t.abort == Some(Abort(AbortPrefix + cases[n - 1].name, body(cases[n - 1].body).thrown.value)))
    decreases cases
  {
    if cases != [] {
      var run := body(cases[0].body);
      if !(throwErrors && run.thrown.Some?) {
        var rest := cases[1..];
        AbortAtFirstError(rest, body, throwErrors);
        var n := Ran(cases, body, throwErrors);
        if RunCases(rest, body, throwErrors).abort.Some? {
          var k :| 0 <= k < |rest| && body(rest[k].body).thrown.Some?;
          assert body(cases[k + 1].body).thrown.Some?;
          assert cases[n - 1] == rest[n - 2];
          forall k | 0 <= k < n - 1
            ensures body(cases[k].body).thrown.None?
          {
            if k > 0 {
              assert cases[k] == rest[k - 1];
            }
          }
        } else {
          forall k | 0 <= k < |cases|
            ensures !(throwErrors && body(cases[k].body).thrown.Some?)
          {
            if k > 0 {
              assert cases[k] == rest[k - 1];
            }
          }
        }
      }
    }
  }

  /**
   * The cases begun are the first `Ran` cases by name, in suite order; each of them
   * is ended; and the errors reported are exactly their escaping errors, in order.
   */
  lemma {:induction false} CasesInOrder(cases: seq<TestCase>, body: TestFunction -> BodyRun, throwErrors: bool)
    ensures var t, n := RunCases(cases, body, throwErrors), Ran(cases, body, throwErrors);
            Began(t.events) == Names(cases[..n]) &&
            Ended(t.events) == n &&
            Errors(t.events) == Thrown(cases[..n], body)
    decreases cases
  {
    if cases != [] {
      var run := body(cases[0].body);
      var here := CaseEvents(cases[0], run);
      var n := Ran(cases, body, throwErrors);
      ViewsOfCase(cases[0], run);
      PrefixViews(cases, body, n);
      if throwErrors && run.thrown.Some? {
        assert RunCases(cases, body, throwErrors).events == here;
        assert cases[1..][..n - 1] == [];
      } else {
        var rest := RunCases(cases[1..], body, throwErrors);
        assert RunCases(cases, body, throwErrors).events == here + rest.events;
        assert n - 1 == Ran(cases[1..], body, throwErrors);
        CasesInOrder(cases[1..], body, throwErrors);
        ViewsOfConcat(here, rest.events);
      }
    }
  }

  /** The names and escaping errors of a non-empty prefix: the first case's, then the rest's. */
  lemma PrefixViews(cases: seq<TestCase>, body: TestFunction -> BodyRun, n: nat)
    requires 0 < n <= |cases|
    ensures Names(cases[..n]) == [cases[0].name] + Names(cases[1..][..n - 1])
    ensures Thrown(cases[..n], body) ==
            (if body(cases[0].body).thrown.Some? then [body(cases[0].body).thrown.value] else []) +
            Thrown(cases[1..][..n - 1], body)
  {
    assert cases[..n][0] == cases[0];
    assert cases[..n][1..] == cases[1..][..n - 1];
  }

  /** Without `throw` every case runs and the run never aborts. */
  lemma NoAbortWithoutThrow(cases: seq<TestCase>, body: TestFunction -> BodyRun)
    ensures RunCases(cases, body, false).abort.None?
    ensures Ran(cases, body, false) == |cases|
  {
    AbortAtFirstError(cases, body, false);
  }

  // ---------------------------------------------------------------------------
  // The suite bracket

  /** Every call in a log is a case bracket or a call on a case. */
  ghost predicate AllCaseLevel(es: seq<ListenerEvent>)
  {
    forall k :: 0 <= k < |es| ==> CaseLevel(es[k])
  }

  /** One case's calls are case-level and end on `endTestCase`. */
  lemma CaseEventsAreCaseLevel(t: TestCase, run: BodyRun)
    ensures AllCaseLevel(CaseEvents(t, run))
    ensures CaseEvents(t, run)[|CaseEvents(t, run)| - 1] == CaseEnded
  {
    var here := CaseEvents(t, run);
    var calls := OnCases(CaseCalls(run));
    assert here == [CaseBegun(t.name, None)] + calls + [CaseEnded];
    forall k | 0 <= k < |here|
      ensures CaseLevel(here[k])
    {
      if 0 < k < |here| - 1 {
        assert here[k] == calls[k - 1];
      }
    }
  }

  lemma AllCaseLevelConcat(a: seq<ListenerEvent>, b: seq<ListenerEvent>)
    requires AllCaseLevel(a) && AllCaseLevel(b)
    ensures AllCaseLevel(a + b)
  {
    forall k | 0 <= k < |a + b|
      ensures CaseLevel((a + b)[k])
    {
      if k >= |a| {
        assert (a + b)[k] == b[k - |a|];
      }
    }
  }

  /** A run's case-level calls: nothing but case brackets and case calls, ending on `endTestCase` when it aborts. */
  lemma {:induction false} CasesAreCaseLevel(cases: seq<TestCase>, body: TestFunction -> BodyRun, throwErrors: bool)
    ensures var t := RunCases(cases, body, throwErrors);
            AllCaseLevel(t.events) &&
            (t.abort.Some? ==> |t.events| > 0 && t.events[|t.events| - 1] == CaseEnded)
    decreases cases
  {
    if cases != [] {
      var run := body(cases[0].body);
      var here := CaseEvents(cases[0], run);
      CaseEventsAreCaseLevel(cases[0], run);
      if !(throwErrors && run.thrown.Some?) {
        var rest := RunCases(cases[1..], body, throwErrors);
        CasesAreCaseLevel(cases[1..], body, throwErrors);
        AllCaseLevelConcat(here, rest.events);
        assert RunCases(cases, body, throwErrors) == Trace(here + rest.events, rest.abort);
        if rest.abort.Some? {
          assert (here + rest.events)[|here + rest.events| - 1] == rest.events[|rest.events| - 1];
        }
      }
    }
  }

  /**
   * `beginTestSuite` is the first call and is made once; `endTestSuite` is made
   * at most once, as the last call, exactly when the run does not abort, and an
   * aborted run ends on the erroring case's `endTestCase`.
   */
  lemma SuiteBracket(name: string, properties: seq<Entry>, cases: seq<TestCase>,
                     body: TestFunction -> BodyRun, throwErrors: bool)
    ensures var es := RunSpec(name, properties, cases, body, throwErrors).events;
            var aborted := RunSpec(name, properties, cases, body, throwErrors).abort.Some?;
            es[0] == SuiteBegun(name, properties) &&
            (forall k :: 0 < k < |es| ==> !es[k].SuiteBegun?) &&
            (forall k :: 0 <= k < |es| - 1 ==> !es[k].SuiteEnded?) &&
            (es[|es| - 1] == SuiteEnded <==> !aborted) &&
            (aborted ==> es[|es| - 1] == CaseEnded)
  {
    var t := RunCases(cases, body, throwErrors);
    CasesAreCaseLevel(cases, body, throwErrors);
    var es := RunSpec(name, properties, cases, body, throwErrors).events;
    var tail: seq<ListenerEvent> := if t.abort.None? then [SuiteEnded] else [];
    assert es == [SuiteBegun(name, properties)] + t.events + tail;
    assert forall k :: 0 < k <= |t.events| ==> es[k] == t.events[k - 1];
  }

  /** The view of the whole run: the suite bracket adds no case, no end and no error. */
  lemma RunViews(name: string, properties: seq<Entry>, cases: seq<TestCase>,
                 body: TestFunction -> BodyRun, throwErrors: bool)
    ensures var es, n := RunSpec(name, properties, cases, body, throwErrors).events, Ran(cases, body, throwErrors);
            Began(es) == Names(cases[..n]) && Ended(es) == n && Errors(es) == Thrown(cases[..n], body)
  {
    var t := RunCases(cases, body, throwErrors);
    var tail: seq<ListenerEvent> := if t.abort.None? then [SuiteEnded] else [];
    CasesInOrder(cases, body, throwErrors);
    ViewsOfConcat([SuiteBegun(name, properties)], t.events);
    ViewsOfConcat([SuiteBegun(name, properties)] + t.events, tail);
  }

  // ---------------------------------------------------------------------------
  // The recording listener accepts a run

  lemma {:induction false} RecorderAcceptsCalls(p: Recording.Phase, calls: seq<CaseEvent>)
    ensures Recording.Replay(p, OnCases(calls)) == Some(p)
    decreases calls
  {
    if calls != [] {
      RecorderAcceptsCalls(p, calls[1..]);
      assert OnCases(calls)[1..] == OnCases(calls[1..]);
    }
  }

  lemma RecorderAcceptsCase(suite: string, t: TestCase, run: BodyRun)
    ensures Recording.Replay(Recording.Phase(Some(suite), None), CaseEvents(t, run)) ==
            Some(Recording.Phase(Some(suite), None))
  {
    var p := Recording.Phase(Some(suite), None);
    var q := Recording.Phase(Some(suite), Some(t.name));
    var begin: seq<ListenerEvent> := [CaseBegun(t.name, None)];
    var calls := OnCases(CaseCalls(run));
    assert CaseEvents(t, run) == begin + calls + [CaseEnded];
    assert Recording.Replay(p, begin) == Some(q);
    RecorderAcceptsCalls(q, CaseCalls(run));
    Recording.ReplayConcat(p, begin, calls);
    assert Recording.Replay(q, [CaseEnded]) == Some(p);
    Recording.ReplayConcat(p, begin + calls, [CaseEnded]);
  }

  lemma {:induction false} RecorderAcceptsCases(suite: string, cases: seq<TestCase>,
                                                body: TestFunction -> BodyRun, throwErrors: bool)
    ensures Recording.Replay(Recording.Phase(Some(suite), None), RunCases(cases, body, throwErrors).events) ==
            Some(Recording.Phase(Some(suite), None))
    decreases cases
  {
    var p := Recording.Phase(Some(suite), None);
    if cases == [] {
    } else {
      var run := body(cases[0].body);
      RecorderAcceptsCase(suite, cases[0], run);
      if !(throwErrors && run.thrown.Some?) {
        RecorderAcceptsCases(suite, cases[1..], body, throwErrors);
        Recording.ReplayConcat(p, CaseEvents(cases[0], run), RunCases(cases[1..], body, throwErrors).events);
      }
    }
  }

  /**
   * The recording listener never raises on the calls of a run. A completed run
   * leaves it idle; an aborted one leaves the suite open, so the recorder would
   * refuse to begin another suite.
   */
  lemma RecorderAcceptsRun(name: string, properties: seq<Entry>, cases: seq<TestCase>,
                           body: TestFunction -> BodyRun, throwErrors: bool)
    ensures var t := RunSpec(name, properties, cases, body, throwErrors);
            Recording.Replay(Recording.Idle, t.events) ==
            Some(if t.abort.None? then Recording.Idle else Recording.Phase(Some(name), None))
  {
    var t := RunCases(cases, body, throwErrors);
    var p := Recording.Phase(Some(name), None);
    var begin: seq<ListenerEvent> := [SuiteBegun(name, properties)];
    var tail: seq<ListenerEvent> := if t.abort.None? then [SuiteEnded] else [];
    assert Recording.Replay(Recording.Idle, begin) == Some(p);
    RecorderAcceptsCases(name, cases, body, throwErrors);
    Recording.ReplayConcat(Recording.Idle, begin, t.events);
    assert Recording.Replay(p, tail) == Some(if t.abort.None? then Recording.Idle else p);
    Recording.ReplayConcat(Recording.Idle, begin + t.events, tail);
  }

  // ---------------------------------------------------------------------------
  // The verdict of one case

  /**
   * A result listener that receives one case's calls ends up failed exactly when
   * some reported assertion failed or the body threw.
   */
  lemma CaseVerdict(run: BodyRun)
    ensures Results.Fold(false, CaseCalls(run)) <==>
            (exists k :: 0 <= k < |run.results| && !run.results[k].passed) || run.thrown.Some?
  {
    var calls := CaseCalls(run);
    Results.FoldFailsIffSomeCallFails(false, calls);
    if exists k :: 0 <= k < |calls| && Results.Fails(calls[k]) {
      var k :| 0 <= k < |calls| && Results.Fails(calls[k]);
      if k < |run.results| {
        assert calls[k] == ResultAdded(run.results[k]);
      }
    }
    if exists k :: 0 <= k < |run.results| && !run.results[k].passed {
      var k :| 0 <= k < |run.results| && !run.results[k].passed;
      assert Results.Fails(calls[k]);
    }
    if run.thrown.Some? {
      assert Results.Fails(calls[|calls| - 1]);
    }
  }
}
