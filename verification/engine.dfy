/** The run loop of `main`, stated declaratively: how each case is
    classified, what each suite's summary holds, when the run aborts, and
    which exit code it ends with. */
module Engine {
  import opened Registry
  import opened Summary
  import opened Json
  import opened Order

  /** The text a `const char*` denotes: the characters before the first
      NUL. `message = e.what()` captures a failure message this way, and
      `fprintf(json_file, "%s", ...)` writes the JSON text this way. */
  function UpToNul(s: string): (r: string)
    ensures r <= s && '\0' !in r
    ensures |r| < |s| ==> s[|r|] == '\0'
    decreases |s|
  {
    if s == [] || s[0] == '\0' then "" else [s[0]] + UpToNul(s[1..])
  }

  /** The body returned: `test_succeeds++`. */
  predicate Passes(c: Case) {
    c.body.effect.Returns?
  }

  /** The body raised `PopQuiz::Exception`: `test_failures++`. */
  predicate FailsQuiz(c: Case) {
    c.body.effect.RaisesQuiz?
  }

  /** The body raised anything else: `main` returns 1 on the spot. */
  predicate Aborts(c: Case) {
    c.body.effect.RaisesOther?
  }

  predicate IsIgnored(c: Case) {
    !c.use
  }

  /** Number of cases satisfying `p`. */
  function CountWhere(cs: seq<Case>, p: Case -> bool): nat
    decreases |cs|
  {
    if cs == [] then 0
    else CountWhere(cs[..|cs| - 1], p) + (if p(cs[|cs| - 1]) then 1 else 0)
  }

  /** Sum of the elapsed milliseconds of all cases. */
  function Elapsed(cs: seq<Case>): nat
    decreases |cs|
  {
    if cs == [] then 0 else Elapsed(cs[..|cs| - 1]) + cs[|cs| - 1].body.elapsedMs
  }

  /** The record `main` writes for one case that did not abort. */
  function RecordOf(c: Case): CaseRecord {
    CaseRecord(c.name, Passes(c), !c.use, c.body.elapsedMs,
               if FailsQuiz(c) then UpToNul(c.body.effect.msg) else "")
  }

  function Records(cs: seq<Case>): (rs: seq<CaseRecord>)
    ensures |rs| == |cs|
  {
    seq(|cs|, i requires 0 <= i < |cs| => RecordOf(cs[i]))
  }

  /** The counters and records of one suite, every case having been run. */
  function Summarize(name: string, cs: seq<Case>): SuiteSummary {
    SuiteSummary(name, Records(cs), |cs|, CountWhere(cs, Passes), CountWhere(cs, FailsQuiz),
                 CountWhere(cs, IsIgnored), Elapsed(cs))
  }

  predicate SuiteAborts(cs: seq<Case>) {
    exists i :: 0 <= i < |cs| && Aborts(cs[i])
  }

  /** Some case with `use == true` raised `PopQuiz::Exception`. */
  predicate SuiteFails(cs: seq<Case>) {
    exists i :: 0 <= i < |cs| && cs[i].use && FailsQuiz(cs[i])
  }

  /** The summaries of the suites named by `keys`, in that order. */
  function SummariesOf(reg: Registry, keys: seq<string>): (ss: seq<SuiteSummary>)
    requires forall k :: k in keys ==> k in reg
    ensures |ss| == |keys|
    decreases |keys|
  {
    if keys == [] then []
    else SummariesOf(reg, keys[..|keys| - 1]) + [Summarize(keys[|keys| - 1], reg[keys[|keys| - 1]])]
  }

  lemma {:induction false} SummariesOfAt(reg: Registry, keys: seq<string>, i: int)
    requires forall k :: k in keys ==> k in reg
    requires 0 <= i < |keys|
    ensures SummariesOf(reg, keys)[i] == Summarize(keys[i], reg[keys[i]])
    decreases |keys|
  {
    if i < |keys| - 1 {
      SummariesOfAt(reg, keys[..|keys| - 1], i);
    }
  }

  /** The outcome of `main`'s loop: either it completes with the suite
      summaries, the JSON text and `return_fail`, or a case aborts it. */
  datatype RunResult = Completed(summaries: seq<SuiteSummary>, json: string, returnFail: bool) | Aborted

  function Run(reg: Registry): RunResult {
    if exists k :: k in reg && SuiteAborts(reg[k]) then Aborted
    else
      var ss := SummariesOf(reg, SortedKeys(reg.Keys));
      Completed(ss, DocumentJson(ss), exists k :: k in reg && SuiteFails(reg[k]))
  }

  /** `return 1` on an abort, otherwise `return_fail ? 1 : 0`. */
  function ExitCode(r: RunResult): (code: int)
    ensures code == 0 || code == 1
    ensures code == 1 <==> r.Aborted? || r.returnFail
  {
    match r
    case Aborted => 1
    case Completed(_, _, returnFail) => if returnFail then 1 else 0
  }

  /** Growing a suite by one case, as the loop in `main` does. */
  lemma RecordsSnoc(cs: seq<Case>)
    requires cs != []
    ensures Records(cs) == Records(cs[..|cs| - 1]) + [RecordOf(cs[|cs| - 1])]
  {
  }

  /** Each case that does not abort lands in exactly one of `test_succeeds`
      and `test_failures`, whatever its `use` flag. */
  lemma {:induction false} CountsPartition(cs: seq<Case>)
    ensures CountWhere(cs, Passes) + CountWhere(cs, FailsQuiz) + CountWhere(cs, Aborts) == |cs|
    ensures CountWhere(cs, Aborts) == 0 <==> !SuiteAborts(cs)
    decreases |cs|
  {
    if cs != [] {
      var init := cs[..|cs| - 1];
      CountsPartition(init);
      if SuiteAborts(init) {
        var i :| 0 <= i < |init| && Aborts(init[i]);
        assert Aborts(cs[i]);
      }
      if SuiteAborts(cs) && !Aborts(cs[|cs| - 1]) {
        var i :| 0 <= i < |cs| && Aborts(cs[i]);
        assert Aborts(init[i]);
      }
    }
  }

  /** The totals of a completed suite agree with its records: the totals
      record of the JSON entry can be recomputed from the case records. */
  lemma {:induction false} SummaryIsConsistent(name: string, cs: seq<Case>)
    requires !SuiteAborts(cs)
    ensures Consistent(Summarize(name, cs))
    ensures Summarize(name, cs).succeeds + Summarize(name, cs).failures == |cs|
    ensures Summarize(name, cs).ignores <= |cs|
    decreases |cs|
  {
    if cs != [] {
      var init := cs[..|cs| - 1];
      forall i | 0 <= i < |init|
        ensures !Aborts(init[i])
      {
        assert init[i] == cs[i];
      }
      assert !Aborts(cs[|cs| - 1]);
      SummaryIsConsistent(name, init);
      RecordsSnoc(cs);
      var rs := Records(cs);
      assert rs[..|rs| - 1] == Records(init);
    }
    ConsistentCounts(Summarize(name, cs));
  }

  /** What the record of the `i`-th case says, in the order the cases were
      registered. */
  lemma RecordsFollowCases(cs: seq<Case>, i: int)
    requires 0 <= i < |cs| && !Aborts(cs[i])
    ensures Records(cs)[i].name == cs[i].name
    ensures Records(cs)[i].status <==> cs[i].body.effect == Returns
    ensures Records(cs)[i].ignore <==> !cs[i].use
    ensures Records(cs)[i].duration == cs[i].body.elapsedMs
    ensures Records(cs)[i].status ==> Records(cs)[i].message == ""
    ensures !Records(cs)[i].status ==> Records(cs)[i].message == UpToNul(cs[i].body.effect.msg)
  {
  }

  /** `main` returns 1 exactly when some case aborts the run or some case
      with `use == true` raised `PopQuiz::Exception`; otherwise 0. */
  lemma ExitCodeRule(reg: Registry)
    ensures ExitCode(Run(reg)) == 0 || ExitCode(Run(reg)) == 1
    ensures ExitCode(Run(reg)) == 1 <==>
      exists k, i :: k in reg && 0 <= i < |reg[k]| && (Aborts(reg[k][i]) || (reg[k][i].use && FailsQuiz(reg[k][i])))
  {
    if exists k, i :: k in reg && 0 <= i < |reg[k]| && (Aborts(reg[k][i]) || (reg[k][i].use && FailsQuiz(reg[k][i]))) {
      var k, i :| k in reg && 0 <= i < |reg[k]| && (Aborts(reg[k][i]) || (reg[k][i].use && FailsQuiz(reg[k][i])));
      if Aborts(reg[k][i]) {
        assert SuiteAborts(reg[k]);
      } else {
        assert SuiteFails(reg[k]);
      }
    }
  }

  /** A failing case whose `use` flag is false never sets `return_fail`:
      when every failure is in an ignored case and nothing aborts, the run
      exits with 0. */
  lemma IgnoredFailuresDoNotFailRun(reg: Registry)
    requires forall k, i :: k in reg && 0 <= i < |reg[k]| ==> !Aborts(reg[k][i])
    requires forall k, i :: k in reg && 0 <= i < |reg[k]| && FailsQuiz(reg[k][i]) ==> !reg[k][i].use
    ensures Run(reg).Completed? && ExitCode(Run(reg)) == 0
  {
    ExitCodeRule(reg);
  }

  /** Any case that raises something other than `PopQuiz::Exception` aborts
      the whole run, wherever it sits: no summary and no JSON text remain. */
  lemma ForeignExceptionAborts(reg: Registry, k: string, i: int)
    requires k in reg && 0 <= i < |reg[k]| && Aborts(reg[k][i])
    ensures Run(reg) == Aborted && ExitCode(Run(reg)) == 1
  {
    assert SuiteAborts(reg[k]);
  }

  /** Each summary is the one of the suite named by the key at its
      position. */
  lemma SummariesNamed(reg: Registry, keys: seq<string>)
    requires forall k :: k in keys ==> k in reg
    ensures forall i :: 0 <= i < |keys| ==>
      SummariesOf(reg, keys)[i].name == keys[i] && SummariesOf(reg, keys)[i] == Summarize(keys[i], reg[keys[i]])
  {
    forall i | 0 <= i < |keys|
      ensures SummariesOf(reg, keys)[i] == Summarize(keys[i], reg[keys[i]])
    {
      SummariesOfAt(reg, keys, i);
    }
  }

  /** Summaries named by keys that enumerate the registry name every suite
      exactly where its key stands. */
  lemma SummariesCoverKeys(reg: Registry, keys: seq<string>, ss: seq<SuiteSummary>)
    requires forall k :: k in reg <==> k in keys
    requires |ss| == |keys| && forall i :: 0 <= i < |keys| ==> ss[i].name == keys[i]
    ensures forall k :: k in reg <==> exists i :: 0 <= i < |ss| && ss[i].name == k
  {
    forall k | k in reg
      ensures exists i :: 0 <= i < |ss| && ss[i].name == k
    {
      var i :| 0 <= i < |keys| && keys[i] == k;
      assert ss[i].name == k;
    }
  }

  /** Summaries taken over an increasing enumeration of the registry's keys:
      one per suite, named and ordered as the keys are. */
  lemma SummariesFollowKeys(reg: Registry, keys: seq<string>, ss: seq<SuiteSummary>)
    requires |keys| == |reg| && StrictlyIncreasing(keys)
    requires forall k :: k in reg <==> k in keys
    requires ss == SummariesOf(reg, keys)
    ensures |ss| == |reg|
    ensures forall i, j :: 0 <= i < j < |ss| ==> LexLess(ss[i].name, ss[j].name)
    ensures forall k :: k in reg <==> exists i :: 0 <= i < |ss| && ss[i].name == k
    ensures forall i :: 0 <= i < |ss| ==> ss[i].name in reg && ss[i] == Summarize(ss[i].name, reg[ss[i].name])
  {
    SummariesNamed(reg, keys);
    SummariesCoverKeys(reg, keys, ss);
  }

  /** A completed run has one summary per suite, in `std::map` key order,
      each summarising exactly that suite's cases. */
  lemma SummariesInKeyOrder(reg: Registry)
    requires Run(reg).Completed?
    ensures var ss := Run(reg).summaries;
      && |ss| == |reg|
      && (forall i, j :: 0 <= i < j < |ss| ==> LexLess(ss[i].name, ss[j].name))
      && (forall k :: k in reg <==> exists i :: 0 <= i < |ss| && ss[i].name == k)
      && (forall i :: 0 <= i < |ss| ==> ss[i].name in reg && ss[i] == Summarize(ss[i].name, reg[ss[i].name]))
  {
    var keys := SortedKeys(reg.Keys);
    assert |keys| == |reg.Keys| == |reg|;
    SummariesFollowKeys(reg, keys, Run(reg).summaries);
  }

  /** Every suite of a completed run is consistent: its totals record
      agrees with its case records. */
  lemma CompletedSuitesConsistent(reg: Registry)
    requires Run(reg).Completed?
    ensures forall i :: 0 <= i < |Run(reg).summaries| ==> Consistent(Run(reg).summaries[i])
  {
    var ss := Run(reg).summaries;
    forall i | 0 <= i < |ss|
      ensures Consistent(ss[i])
    {
      SummariesInKeyOrder(reg);
      SummaryIsConsistent(ss[i].name, reg[ss[i].name]);
    }
  }

  /** Changing one case's `use` flag moves only `test_ignores` (and possibly
      the exit code): the case is still run, counted and timed the same. */
  lemma {:induction false} UseFlagOnlyMovesIgnores(cs: seq<Case>, i: int, use: bool)
    requires 0 <= i < |cs|
    ensures var cs' := cs[i := cs[i].(use := use)];
      && CountWhere(cs', Passes) == CountWhere(cs, Passes)
      && CountWhere(cs', FailsQuiz) == CountWhere(cs, FailsQuiz)
      && Elapsed(cs') == Elapsed(cs)
      && CountWhere(cs', IsIgnored) + (if cs[i].use then 0 else 1)
         == CountWhere(cs, IsIgnored) + (if use then 0 else 1)
    decreases |cs|
  {
    var cs' := cs[i := cs[i].(use := use)];
    var n := |cs|;
    if i < n - 1 {
      assert cs'[..n - 1] == cs[..n - 1][i := cs[i].(use := use)];
      UseFlagOnlyMovesIgnores(cs[..n - 1], i, use);
    } else {
      assert cs'[..n - 1] == cs[..n - 1];
    }
  }

  /** The empty registry: the document is `{}` and the exit code 0. */
  lemma EmptyRegistry()
    ensures Run(map[]) == Completed([], "{}", false)
    ensures ExitCode(Run(map[])) == 0
  {
    var e: Registry := map[];
    assert SortedKeys(e.Keys) == [];
  }
}
