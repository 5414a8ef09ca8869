/**
 * One verdict per diagnostic check: its name, its outcome, the priority derived
 * from the outcome, and the reason and suggestion, which are kept only when the
 * check did not pass (agent/vehicle_test_agent.py, record_result and get_priority).
 * The source's tri-state `passed` (True, False or None) is the closed type Outcome.
 */
module Verdicts {
  import opened Wrappers

  datatype Outcome = Passed | Failed | NotImplemented

  /** A verdict as the source stores it, one dictionary per check. */
  datatype Verdict = Verdict(
    test: string,
    outcome: Outcome,
    priority: Option<string>,
    reason: Option<string>,
    suggestion: Option<string>)

  /** The outcome of a threshold comparison, which is never "not implemented". */
  function FromBool(holds: bool): Outcome
  {
    if holds then Passed else Failed
  }

  /** The label the source writes into a verdict's 'result' field. */
  function Label(o: Outcome): string
  {
    match o
    case Passed => "\U{2705} Passed"
    case Failed => "\U{274C} Failed"
    case NotImplemented => "\U{26A0}\U{FE0F} Not Implemented"
  }

  /** Distinct outcomes carry distinct labels, so counting labels is counting outcomes. */
  lemma LabelInjective(a: Outcome, b: Outcome)
    ensures Label(a) == Label(b) <==> a == b
  {
    if a != b {
      assert Label(a)[0] != Label(b)[0];
    }
  }

  /** Priority as intended: "Medium" for a failed or unimplemented check, none for a passed one. */
  function Priority(o: Outcome): (p: Option<string>)
    ensures p == Some("Medium") <==> o != Passed
    ensures p == None <==> o == Passed
  {
    if o == Passed then None else Some("Medium")
  }

  /** The invariant every recorded verdict keeps. */
  predicate WellFormed(v: Verdict)
  {
    && v.priority == Priority(v.outcome)
    && (v.reason.Some? <==> v.outcome != Passed)
    && (v.suggestion.Some? <==> v.outcome != Passed)
  }

  predicate AllWellFormed(vs: seq<Verdict>)
  {
    forall i :: 0 <= i < |vs| ==> WellFormed(vs[i])
  }

  /** The entry record_result appends: the reason and suggestion survive exactly when the check did not pass. */
  function MakeVerdict(test: string, passed: Outcome, reason: string, suggestion: string): (v: Verdict)
    ensures WellFormed(v)
    ensures v.test == test && v.outcome == passed
    ensures passed != Passed ==> v.reason == Some(reason) && v.suggestion == Some(suggestion)
    ensures passed == Passed <==> v.reason == None && v.suggestion == None && v.priority == None
  {
    var kept := passed != Passed;
    Verdict(test, passed, Priority(passed),
      if kept then Some(reason) else None,
      if kept then Some(suggestion) else None)
  }

  // ---------------------------------------------------------------------------
  // get_priority as written. It tests `passed is None or passed is False`, an
  // identity test against Python's own False. The threshold checks hand it the
  // result of comparing a pandas statistic (a NumPy scalar) with a number, which
  // is a NumPy boolean: falsy, but not the object False.
  // ---------------------------------------------------------------------------

  /** The value the source passes as `passed`. */
  datatype PassedArg = PyNone | PyBool(b: bool) | NumpyBool(b: bool)

  /** record_result's label choice: truthiness first, then the test for None. */
  function OutcomeOf(p: PassedArg): (o: Outcome)
    ensures o == NotImplemented <==> p == PyNone
    ensures o == Passed <==> (p.PyBool? || p.NumpyBool?) && p.b
  {
    match p
    case PyNone => NotImplemented
    case PyBool(b) => FromBool(b)
    case NumpyBool(b) => FromBool(b)
  }

  /** get_priority as written: "Medium" only for the objects None and False. */
  function PriorityAsWritten(p: PassedArg): (priority: Option<string>)
    ensures priority.Some? ==> priority == Some("Medium")
    ensures p.NumpyBool? ==> priority == None
  {
    if p == PyNone || p == PyBool(false) then Some("Medium") else None
  }

  /** On Python's own values the code as written agrees with the intended priority. */
  lemma PriorityAsWrittenOnPythonValues(p: PassedArg)
    requires !p.NumpyBool?
    ensures PriorityAsWritten(p) == Priority(OutcomeOf(p))
  {
  }

  /** A failed threshold check (a NumPy False) is labelled Failed but gets no priority as written. */
  lemma FailedThresholdCheckLosesPriority()
    ensures OutcomeOf(NumpyBool(false)) == Failed
    ensures PriorityAsWritten(NumpyBool(false)) == None
    ensures Priority(OutcomeOf(NumpyBool(false))) == Some("Medium")
  {
  }
}
