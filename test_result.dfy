/**
 * The test-case listener that keeps only the net verdict of a test: any failed
 * assertion or any error marks the test as failed, and nothing clears the mark.
 */
module Results {
  import opened TestInterop

  /** A call that makes a test fail: a failed assertion or an error. */
  predicate Fails(e: CaseEvent)
  {
    (e.ResultAdded? && !e.result.passed) || e.ErrorAdded?
  }

  /** The flag after one call on a result whose flag was `hasErrors`. */
  function Step(hasErrors: bool, e: CaseEvent): bool
  {
    match e
    case ResultAdded(r) => if !r.passed then true else hasErrors
    case ErrorAdded(_) => true
    case Skipped(_) => hasErrors
    case Disabled(_) => hasErrors
  }

  /** The flag after a sequence of calls, in order. */
  function Fold(hasErrors: bool, es: seq<CaseEvent>): bool
    decreases es
  {
    if es == [] then hasErrors else Fold(Step(hasErrors, es[0]), es[1..])
  }

  /** One call sets the flag exactly when it fails, and never clears it. */
  lemma StepSetsOnFailure(hasErrors: bool, e: CaseEvent)
    ensures Step(hasErrors, e) <==> hasErrors || Fails(e)
  {
  }

  /**
   * The verdict after any sequence of calls: failed exactly when it was already
   * failed or one of the calls failed. Skipping and disabling never matter.
   */
  lemma {:induction false} FoldFailsIffSomeCallFails(hasErrors: bool, es: seq<CaseEvent>)
    ensures Fold(hasErrors, es) <==> hasErrors || exists k :: 0 <= k < |es| && Fails(es[k])
    decreases es
  {
    if es != [] {
      FoldFailsIffSomeCallFails(Step(hasErrors, es[0]), es[1..]);
      StepSetsOnFailure(hasErrors, es[0]);
      if exists k :: 0 <= k < |es[1..]| && Fails(es[1..][k]) {
        var k :| 0 <= k < |es[1..]| && Fails(es[1..][k]);
        assert Fails(es[k + 1]);
      }
      if exists k :: 0 <= k < |es| && Fails(es[k]) {
        var k :| 0 <= k < |es| && Fails(es[k]);
        if k > 0 {
          assert Fails(es[1..][k - 1]);
        }
      }
    }
  }

  /** Once failed, always failed: the flag is monotone over any sequence of calls. */
  lemma FoldMonotone(es: seq<CaseEvent>)
    ensures Fold(true, es)
  {
    FoldFailsIffSomeCallFails(true, es);
  }

  class TestResult {
    var hasErrors: bool

    /** A fresh result has no errors. */
    constructor()
      ensures !hasErrors
    {
      hasErrors := false;
    }

    /** A failed assertion sets the flag; a passing one leaves it as it was. */
    method AddResult(r: AssertionResult)
      modifies this
      ensures hasErrors == Step(old(hasErrors), ResultAdded(r))
      ensures !r.passed ==> hasErrors
      ensures r.passed ==> hasErrors == old(hasErrors)
    {
      if !r.passed {
        hasErrors := true;
      }
    }

    /** An error always sets the flag. */
    method AddError(e: Throwable)
      modifies this
      ensures hasErrors == Step(old(hasErrors), ErrorAdded(e))
      ensures hasErrors
    {
      hasErrors := true;
    }

    /** Skipping does not affect the verdict. */
    method SetSkipped(reason: string)
      ensures hasErrors == Step(hasErrors, Skipped(reason))
    {
    }

    /** Disabling does not affect the verdict. */
    method SetDisabled(reason: string)
      ensures hasErrors == Step(hasErrors, Disabled(reason))
    {
    }

    function HasErrors(): bool
      reads this
    {
      hasErrors
    }
  }
}
