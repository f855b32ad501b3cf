/** The colour of the "tests passed" line that `main` prints under each
    suite's console summary: green for a suite that passed, red otherwise.
    The rule as written compares `test_succeeds + test_ignores` with
    `test_count`; the corrected rule asks whether some included case failed,
    which is exactly when the suite sets `return_fail`. */
module Verdict {
  import opened Wrappers
  import opened Registry
  import opened Summary
  import opened Engine

  datatype Colour = Green | Red

  /** An ignored case that passed: counted both in `test_succeeds` and in
      `test_ignores`. */
  predicate IgnoredPass(r: CaseRecord) {
    r.ignore && r.status
  }

  /** A case with `use == true` that failed: the only kind of record that
      makes the run exit with 1. */
  predicate IncludedFail(r: CaseRecord) {
    !r.ignore && !r.status
  }

  /** The colour as the header computes it; `None` when the suite is empty
      and no summary is printed at all. */
  function SuccessColourAsWritten(s: SuiteSummary): (c: Option<Colour>)
    ensures c.Some? <==> s.count > 0
  {
    if s.count == 0 then None
    else if s.succeeds + s.ignores == s.count then Some(Green)
    else Some(Red)
  }

  /** The corrected colour: green exactly when no included case failed. */
  function SuccessColour(s: SuiteSummary): (c: Option<Colour>)
    ensures c.Some? <==> s.count > 0
  {
    if s.count == 0 then None
    else if CountRecords(s.records, IncludedFail) == 0 then Some(Green)
    else Some(Red)
  }

  /** Every record falls in one of four classes by `ignore` and `status`;
      summing successes and ignores counts the ignored passes twice and the
      included failures not at all. */
  lemma {:induction false} PassedPlusIgnored(rs: seq<CaseRecord>)
    ensures CountRecords(rs, Passed) + CountRecords(rs, Ignored)
         == |rs| + CountRecords(rs, IgnoredPass) - CountRecords(rs, IncludedFail)
    decreases |rs|
  {
    if rs != [] {
      PassedPlusIgnored(rs[..|rs| - 1]);
    }
  }

  /** No record satisfies `p` exactly when the count of `p` is zero. */
  lemma {:induction false} CountRecordsZero(rs: seq<CaseRecord>, p: CaseRecord -> bool)
    ensures CountRecords(rs, p) == 0 <==> forall i :: 0 <= i < |rs| ==> !p(rs[i])
    decreases |rs|
  {
    if rs != [] {
      var init := rs[..|rs| - 1];
      CountRecordsZero(init, p);
      if forall i :: 0 <= i < |rs| ==> !p(rs[i]) {
        forall i | 0 <= i < |init|
          ensures !p(init[i])
        {
          assert init[i] == rs[i];
        }
      }
      if CountRecords(rs, p) == 0 {
        forall i | 0 <= i < |rs|
          ensures !p(rs[i])
        {
          if i < |init| {
            assert init[i] == rs[i];
          }
        }
      }
    }
  }

  /** The rule as written turns green exactly when the ignored passes
      happen to balance the included failures, whatever either number is. */
  lemma AsWrittenGreenExactly(s: SuiteSummary)
    requires Consistent(s) && s.count > 0
    ensures SuccessColourAsWritten(s) == Some(Green)
        <==> CountRecords(s.records, IgnoredPass) == CountRecords(s.records, IncludedFail)
  {
    PassedPlusIgnored(s.records);
  }

  /** A suite with one ignored passing case and one included failing case:
      the run exits with 1 because of this suite, yet its line is green. */
  lemma AsWrittenGreenDespiteFailure()
    ensures var cs := [Case("a", Body(Returns, 0), false), Case("b", Body(RaisesQuiz("x"), 0), true)];
      && SuiteFails(cs)
      && SuccessColourAsWritten(Summarize("s", cs)) == Some(Green)
      && SuccessColour(Summarize("s", cs)) == Some(Red)
  {
    var cs := [Case("a", Body(Returns, 0), false), Case("b", Body(RaisesQuiz("x"), 0), true)];
    assert cs[1].use && FailsQuiz(cs[1]);
    assert cs[..1] == [cs[0]] && cs[..1][..0] == [];
    assert CountWhere(cs, Passes) == 1 && CountWhere(cs, IsIgnored) == 1;
    SuccessColourFollowsReturnFail("s", cs);
  }

  /** A suite with one ignored passing case and one included passing case:
      nothing failed, yet its line is red. */
  lemma AsWrittenRedWithoutFailure()
    ensures var cs := [Case("a", Body(Returns, 0), false), Case("b", Body(Returns, 0), true)];
      && !SuiteFails(cs)
      && SuccessColourAsWritten(Summarize("s", cs)) == Some(Red)
      && SuccessColour(Summarize("s", cs)) == Some(Green)
  {
    var cs := [Case("a", Body(Returns, 0), false), Case("b", Body(Returns, 0), true)];
    assert cs[..1] == [cs[0]] && cs[..1][..0] == [];
    assert CountWhere(cs, Passes) == 2 && CountWhere(cs, IsIgnored) == 1;
    SuccessColourFollowsReturnFail("s", cs);
  }

  /** The corrected colour of a suite that ran to completion is red exactly
      when the suite sets `return_fail`. */
  lemma SuccessColourFollowsReturnFail(name: string, cs: seq<Case>)
    requires !SuiteAborts(cs) && cs != []
    ensures SuccessColour(Summarize(name, cs)) == Some(if SuiteFails(cs) then Red else Green)
  {
    var rs := Records(cs);
    CountRecordsZero(rs, IncludedFail);
    if SuiteFails(cs) {
      var i :| 0 <= i < |cs| && cs[i].use && FailsQuiz(cs[i]);
      assert IncludedFail(rs[i]);
    } else {
      forall i | 0 <= i < |rs|
        ensures !IncludedFail(rs[i])
      {
        assert !Aborts(cs[i]);
      }
    }
  }

  /** A red suite in a completed run means the run exits with 1. */
  lemma RedSuiteFailsRun(reg: Registry, k: string)
    requires Run(reg).Completed? && k in reg && reg[k] != []
    requires SuccessColour(Summarize(k, reg[k])) == Some(Red)
    ensures ExitCode(Run(reg)) == 1
  {
    assert !SuiteAborts(reg[k]);
    SuccessColourFollowsReturnFail(k, reg[k]);
  }
}
