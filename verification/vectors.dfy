/** The two example test programs of the repository, replayed through the
    model: their `Setup` calls, the registry they build, the counters of
    their one suite and the exit code. Durations are left symbolic. */
module Vectors {
  import opened Registry
  import opened Summary
  import opened Engine
  import opened Assertions
  import Driver

  /** One `AddTest` call per registration, in order. */
  function Adds(rs: seq<Registration>): (calls: seq<Driver.SetupCall>)
    ensures |calls| == |rs|
    ensures forall i :: 0 <= i < |rs| ==> calls[i] == Driver.Add(rs[i])
  {
    seq(|rs|, i requires 0 <= i < |rs| => Driver.Add(rs[i]))
  }

  /** `example/ExampleOne.unit_test.cpp`: console off, an explicit JSON
      path, two passing cases and one ignored failing case. */
  function ExampleOneSetup(d1: nat, d2: nat, d3: nat): seq<Driver.SetupCall> {
    [Driver.SetConsole(false), Driver.SetJsonPath("ExampleOne.unit_test.json")] + Adds(ExampleOneTests(d1, d2, d3))
  }

  function ExampleOneTests(d1: nat, d2: nat, d3: nat): seq<Registration> {
    [ Registration("Example #1", "Do Nothing", Body(Returns, d1), true),
      Registration("Example #1", "Assert True", Body(AssertEqual(1, 1, "Equal, Yay!"), d2), true),
      Registration("Example #1", "Throw Exception", Body(AssertEqual(1, 2, "Not equal, duh..."), d3), false) ]
  }

  /** `example/ExampleTwo.unit_test.cpp`: `POPQUIZ_JSON_OUTPUT()` in the
      source file `file`, an ignored passing case, a passing case and an
      ignored failing case. Two string literals of equal length go to the
      generic `AssertEqual` with `T = const char[3]`, which compares their
      addresses; `"Pi"` and `"pi"` have different contents, so they are
      distinct objects, the addresses differ, and the assertion raises
      `Almost Equal!`, as the value comparison below does. */
  function ExampleTwoSetup(file: string, d1: nat, d2: nat, d3: nat): seq<Driver.SetupCall> {
    [Driver.SetJsonPath(Driver.JsonFileName(file))] + Adds(ExampleTwoTests(d1, d2, d3))
  }

  function ExampleTwoTests(d1: nat, d2: nat, d3: nat): seq<Registration> {
    [ Registration("Example #2", "Ignore", Body(Returns, d1), false),
      Registration("Example #2", "Do nothing", Body(Returns, d2), true),
      Registration("Example #2", "Throw Exception and Ignore", Body(AssertEqual("Pi", "pi", "Almost Equal!"), d3), false) ]
  }

  /** Output settings followed by `AddTest` calls register exactly those
      tests. */
  lemma {:induction false} AdditionsOfAdds(pre: seq<Driver.SetupCall>, rs: seq<Registration>)
    requires forall j :: 0 <= j < |pre| ==> !pre[j].Add?
    ensures Driver.Additions(pre + Adds(rs)) == rs
    decreases |rs|
  {
    var all := pre + Adds(rs);
    if rs == [] {
      assert all == pre;
      NoAdditions(pre);
    } else {
      var init := rs[..|rs| - 1];
      assert all[..|all| - 1] == pre + Adds(init);
      AdditionsOfAdds(pre, init);
    }
  }

  lemma {:induction false} NoAdditions(calls: seq<Driver.SetupCall>)
    requires forall j :: 0 <= j < |calls| ==> !calls[j].Add?
    ensures Driver.Additions(calls) == []
    decreases |calls|
  {
    if calls != [] {
      NoAdditions(calls[..|calls| - 1]);
    }
  }

  /** A registry holding the single suite `name`. */
  lemma SingleSuiteRun(name: string, cs: seq<Case>)
    requires !SuiteAborts(cs)
    ensures Run(map[name := cs]) == Completed([Summarize(name, cs)], Json.DocumentJson([Summarize(name, cs)]), SuiteFails(cs))
  {
    var reg := map[name := cs];
    var keys := Order.SortedKeys(reg.Keys);
    assert reg.Keys == {name};
    assert keys == [name];
    assert keys[..0] == [];
  }

  /** The cases of example one as the engine sees them. */
  lemma ExampleOneRegistry(d1: nat, d2: nat, d3: nat)
    ensures Driver.RunSetup(ExampleOneSetup(d1, d2, d3)).reg
         == map["Example #1" := [Case("Do Nothing", Body(Returns, d1), true),
                                 Case("Assert True", Body(Returns, d2), true),
                                 Case("Throw Exception", Body(RaisesQuiz("Not equal, duh..."), d3), false)]]
  {
    var rs := ExampleOneTests(d1, d2, d3);
    var pre := [Driver.SetConsole(false), Driver.SetJsonPath("ExampleOne.unit_test.json")];
    AdditionsOfAdds(pre, rs);
    OneSuiteSetup(ExampleOneSetup(d1, d2, d3), "Example #1",
      [Case("Do Nothing", Body(Returns, d1), true),
       Case("Assert True", Body(Returns, d2), true),
       Case("Throw Exception", Body(RaisesQuiz("Not equal, duh..."), d3), false)]);
  }

  /** The cases of example two as the engine sees them. */
  lemma ExampleTwoRegistry(file: string, d1: nat, d2: nat, d3: nat)
    ensures Driver.RunSetup(ExampleTwoSetup(file, d1, d2, d3)).reg
         == map["Example #2" := [Case("Ignore", Body(Returns, d1), false),
                                 Case("Do nothing", Body(Returns, d2), true),
                                 Case("Throw Exception and Ignore", Body(RaisesQuiz("Almost Equal!"), d3), false)]]
  {
    var rs := ExampleTwoTests(d1, d2, d3);
    var pre := [Driver.SetJsonPath(Driver.JsonFileName(file))];
    AdditionsOfAdds(pre, rs);
    OneSuiteSetup(ExampleTwoSetup(file, d1, d2, d3), "Example #2",
      [Case("Ignore", Body(Returns, d1), false),
       Case("Do nothing", Body(Returns, d2), true),
       Case("Throw Exception and Ignore", Body(RaisesQuiz("Almost Equal!"), d3), false)]);
  }

  /** Counting over a three-case suite. */
  lemma CountWhereThree(a: Case, b: Case, c: Case, p: Case -> bool)
    ensures CountWhere([a, b, c], p) == (if p(a) then 1 else 0) + (if p(b) then 1 else 0) + (if p(c) then 1 else 0)
    ensures Elapsed([a, b, c]) == a.body.elapsedMs + b.body.elapsedMs + c.body.elapsedMs
  {
    assert [a, b, c][..2] == [a, b];
    assert [a, b][..1] == [a];
    assert [a][..0] == [];
    assert CountWhere([a], p) == (if p(a) then 1 else 0);
    assert CountWhere([a, b], p) == CountWhere([a], p) + (if p(b) then 1 else 0);
    assert Elapsed([a, b]) == Elapsed([a]) + b.body.elapsedMs;
  }

  /** The counters of a three-case suite, from the verdicts of its cases. */
  lemma ThreeCaseSummary(name: string, a: Case, b: Case, c: Case)
    requires !Aborts(a) && !Aborts(b) && !Aborts(c)
    ensures var s := Summarize(name, [a, b, c]);
      && s.count == 3
      && s.succeeds == (if Passes(a) then 1 else 0) + (if Passes(b) then 1 else 0) + (if Passes(c) then 1 else 0)
      && s.failures == (if FailsQuiz(a) then 1 else 0) + (if FailsQuiz(b) then 1 else 0) + (if FailsQuiz(c) then 1 else 0)
      && s.ignores == (if a.use then 0 else 1) + (if b.use then 0 else 1) + (if c.use then 0 else 1)
      && s.totalDuration == a.body.elapsedMs + b.body.elapsedMs + c.body.elapsedMs
      && !SuiteAborts([a, b, c])
      && (SuiteFails([a, b, c]) <==> (a.use && FailsQuiz(a)) || (b.use && FailsQuiz(b)) || (c.use && FailsQuiz(c)))
  {
    var cs := [a, b, c];
    CountWhereThree(a, b, c, Passes);
    CountWhereThree(a, b, c, FailsQuiz);
    CountWhereThree(a, b, c, IsIgnored);
    assert cs[0] == a && cs[1] == b && cs[2] == c;
    if (a.use && FailsQuiz(a)) || (b.use && FailsQuiz(b)) || (c.use && FailsQuiz(c)) {
      assert a == cs[0] && b == cs[1] && c == cs[2];
    }
  }

  /** A registry of one suite of three cases that do not abort: the run
      completes with that suite's summary, and exits with 1 exactly when an
      included case failed. */
  lemma ThreeCaseRun(name: string, a: Case, b: Case, c: Case)
    requires !Aborts(a) && !Aborts(b) && !Aborts(c)
    ensures Run(map[name := [a, b, c]]) == Completed([Summarize(name, [a, b, c])], Json.DocumentJson([Summarize(name, [a, b, c])]), SuiteFails([a, b, c]))
    ensures ExitCode(Run(map[name := [a, b, c]])) == 1
        <==> (a.use && FailsQuiz(a)) || (b.use && FailsQuiz(b)) || (c.use && FailsQuiz(c))
  {
    ThreeCaseSummary(name, a, b, c);
    SingleSuiteRun(name, [a, b, c]);
  }

  /** Example one writes its JSON file to the path it names. */
  lemma ExampleOneSettings(d1: nat, d2: nat, d3: nat)
    ensures Driver.RunSetup(ExampleOneSetup(d1, d2, d3)).outputJson
    ensures Driver.RunSetup(ExampleOneSetup(d1, d2, d3)).jsonPath == "ExampleOne.unit_test.json"
  {
    Driver.LastJsonPathWins(ExampleOneSetup(d1, d2, d3), 1);
  }

  /** Example one: three cases run, two succeed, one fails, one is ignored;
      the failure is in the ignored case, so the exit code is 0. */
  lemma ExampleOneVector(d1: nat, d2: nat, d3: nat)
    ensures var r := Run(Driver.RunSetup(ExampleOneSetup(d1, d2, d3)).reg);
      && r.Completed? && |r.summaries| == 1
      && var s := r.summaries[0];
      && s.name == "Example #1"
      && s.count == 3 && s.succeeds == 2 && s.failures == 1 && s.ignores == 1
      && s.totalDuration == d1 + d2 + d3
      && ExitCode(r) == 0
  {
    var a, b, c := Case("Do Nothing", Body(Returns, d1), true),
                   Case("Assert True", Body(Returns, d2), true),
                   Case("Throw Exception", Body(RaisesQuiz("Not equal, duh..."), d3), false);
    ExampleOneRegistry(d1, d2, d3);
    ThreeCaseSummary("Example #1", a, b, c);
    ThreeCaseRun("Example #1", a, b, c);
  }

  /** Example two turns JSON output on, with the path `__FILE__` cut at its
      last `.` plus `.json`. `fopen` resolves that path as given, so a
      relative one names a file in the working directory. */
  lemma ExampleTwoSettings(file: string, d1: nat, d2: nat, d3: nat)
    ensures Driver.RunSetup(ExampleTwoSetup(file, d1, d2, d3)).outputJson
    ensures Driver.RunSetup(ExampleTwoSetup(file, d1, d2, d3)).jsonPath == Driver.JsonFileName(file)
  {
    Driver.LastJsonPathWins(ExampleTwoSetup(file, d1, d2, d3), 0);
  }

  /** Example two: three cases run, two succeed, one fails, two are
      ignored; the only failure is ignored, so the exit code is 0. */
  lemma ExampleTwoVector(file: string, d1: nat, d2: nat, d3: nat)
    ensures var r := Run(Driver.RunSetup(ExampleTwoSetup(file, d1, d2, d3)).reg);
      && r.Completed? && |r.summaries| == 1
      && var s := r.summaries[0];
      && s.name == "Example #2"
      && s.count == 3 && s.succeeds == 2 && s.failures == 1 && s.ignores == 2
      && s.totalDuration == d1 + d2 + d3
      && ExitCode(r) == 0
  {
    var a, b, c := Case("Ignore", Body(Returns, d1), false),
                   Case("Do nothing", Body(Returns, d2), true),
                   Case("Throw Exception and Ignore", Body(RaisesQuiz("Almost Equal!"), d3), false);
    ExampleTwoRegistry(file, d1, d2, d3);
    ThreeCaseSummary("Example #2", a, b, c);
    ThreeCaseRun("Example #2", a, b, c);
  }

  /** Setup calls whose `AddTest` calls all name one suite build a registry
      holding just that suite, with the cases in call order. */
  lemma OneSuiteSetup(calls: seq<Driver.SetupCall>, name: string, cs: seq<Case>)
    requires var adds := Driver.Additions(calls);
      && |adds| == |cs| > 0
      && forall i :: 0 <= i < |adds| ==> adds[i].suite == name && adds[i].ToCase() == cs[i]
    ensures Driver.RunSetup(calls).reg == map[name := cs]
  {
    var adds := Driver.Additions(calls);
    Driver.SetupRegistry(calls);
    RegisterKeepsCallOrder(adds);
    var reg := Register(adds);
    assert adds[0].suite == name;
    forall s ensures s in reg <==> s == name {
      if s in reg {
        var i :| 0 <= i < |adds| && adds[i].suite == s;
      }
    }
    CasesForOneSuite(adds, name, cs);
    assert reg == map[name := cs];
  }

  /** When every call names `name`, the cases for `name` are all of them. */
  lemma {:induction false} CasesForOneSuite(adds: seq<Registration>, name: string, cs: seq<Case>)
    requires |adds| == |cs|
    requires forall i :: 0 <= i < |adds| ==> adds[i].suite == name && adds[i].ToCase() == cs[i]
    ensures CasesFor(adds, name) == cs
    decreases |adds|
  {
    if adds != [] {
      CasesForOneSuite(adds[1..], name, cs[1..]);
    }
  }
}
