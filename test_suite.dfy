/**
 * A test suite: a named, append-only list of test cases, each a name paired with
 * the function that performs the test.
 */
module Suites {
  import opened TestInterop

  /** Identity of the closure that performs a test; what it does is not modelled here. */
  type TestFunction = nat

  /** A test case: its human-readable name and its function. */
  datatype TestCase = TestCase(name: string, body: TestFunction)

  /** The names of a list of test cases, in order. */
  function Names(cases: seq<TestCase>): (names: seq<string>)
    ensures |names| == |cases|
    ensures forall k :: 0 <= k < |cases| ==> names[k] == cases[k].name
  {
    if cases == [] then [] else [cases[0].name] + Names(cases[1..])
  }

  /**
   * Appending a case appends its name, and nothing collapses duplicates: adding a
   * name that is already present makes it occur once more.
   */
  lemma NamesOfAppended(cases: seq<TestCase>, c: TestCase)
    ensures Names(cases + [c]) == Names(cases) + [c.name]
    ensures multiset(Names(cases + [c]))[c.name] == multiset(Names(cases))[c.name] + 1
  {
    var grown, appended := Names(cases + [c]), Names(cases) + [c.name];
    forall k | 0 <= k < |grown|
      ensures grown[k] == appended[k]
    {
      if k < |cases| {
        assert (cases + [c])[k] == cases[k];
      }
    }
    assert grown == appended;
    assert multiset(appended) == multiset(Names(cases)) + multiset{c.name};
  }

  class TestSuite {
    const name: string
    const properties: seq<Entry>
    var testCases: seq<TestCase>

    /** Stores the name and the properties; the suite starts with no cases. */
    constructor(name: string, properties: seq<Entry>)
      ensures this.name == name && this.properties == properties
      ensures testCases == []
    {
      this.name := name;
      this.properties := properties;
      testCases := [];
    }

    /** Appends exactly one case at the end; earlier cases, the name and the properties stay. */
    method Add(name: string, body: TestFunction)
      modifies this
      ensures testCases == old(testCases) + [TestCase(name, body)]
      ensures Names(testCases) == Names(old(testCases)) + [name]
    {
      testCases := testCases + [TestCase(name, body)];
      NamesOfAppended(old(testCases), TestCase(name, body));
    }

    function GetTestCases(): seq<TestCase>
      reads this
    {
      testCases
    }

    function GetName(): string
    {
      name
    }

    function GetProperties(): seq<Entry>
    {
      properties
    }
  }
}
