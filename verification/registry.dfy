/** The registry of test suites: `PopQuiz::List`, a `std::map` from suite
    name to the suite's cases in registration order, filled by `AddTest`. */
module Registry {

  /** What running a case body does, as the engine observes it: it returns,
      it raises a `PopQuiz::Exception` carrying a message, or it raises a
      value of some other type (named by `kind`). */
  datatype Outcome = Returns | RaisesQuiz(msg: string) | RaisesOther(kind: string)

  /** A case body, abstracted to its outcome and the whole milliseconds that
      elapse while it runs. */
  datatype Body = Body(effect: Outcome, elapsedMs: nat)

  /** `PopQuiz::Case`: name, body and the `use` flag (false = ignored). */
  datatype Case = Case(name: string, body: Body, use: bool)

  type Suite = seq<Case>

  type Registry = map<string, Suite>

  /** `GetList()[suite]`: a missing suite reads as the empty suite. */
  function SuiteOf(reg: Registry, suite: string): Suite {
    if suite in reg then reg[suite] else []
  }

  /** `AddTest`: append one case at the end of `suite`, creating the suite
      when it is absent; every other suite keeps its cases. */
  function AddTest(reg: Registry, suite: string, name: string, body: Body, use: bool := true): (r: Registry)
    ensures r.Keys == reg.Keys + {suite}
    ensures r[suite] == SuiteOf(reg, suite) + [Case(name, body, use)]
    ensures forall k :: k in reg && k != suite ==> r[k] == reg[k]
  {
    reg[suite := SuiteOf(reg, suite) + [Case(name, body, use)]]
  }

  /** One `AddTest` call made by the setup callback. */
  datatype Registration = Registration(suite: string, name: string, body: Body, use: bool) {
    function ToCase(): Case {
      Case(name, body, use)
    }
  }

  /** The registry after the setup callback made `calls`, in order. */
  function Register(calls: seq<Registration>): Registry
    decreases |calls|
  {
    if calls == [] then map[]
    else
      var last := calls[|calls| - 1];
      AddTest(Register(calls[..|calls| - 1]), last.suite, last.name, last.body, last.use)
  }

  /** One more call adds one more case. */
  lemma RegisterSnoc(calls: seq<Registration>, x: Registration)
    ensures Register(calls + [x]) == AddTest(Register(calls), x.suite, x.name, x.body, x.use)
  {
    assert (calls + [x])[..|calls|] == calls;
  }

  /** Reference definition: the cases registered for `suite`, in call order. */
  function CasesFor(calls: seq<Registration>, suite: string): Suite
    decreases |calls|
  {
    if calls == [] then []
    else (if calls[0].suite == suite then [calls[0].ToCase()] else []) + CasesFor(calls[1..], suite)
  }

  lemma {:induction false} CasesForSnoc(calls: seq<Registration>, x: Registration, suite: string)
    ensures CasesFor(calls + [x], suite)
         == CasesFor(calls, suite) + (if x.suite == suite then [x.ToCase()] else [])
    decreases |calls|
  {
    if calls == [] {
      assert calls + [x] == [x];
    } else {
      var h := if calls[0].suite == suite then [calls[0].ToCase()] else [];
      var t := if x.suite == suite then [x.ToCase()] else [];
      assert (calls + [x])[0] == calls[0];
      assert (calls + [x])[1..] == calls[1..] + [x];
      CasesForSnoc(calls[1..], x, suite);
      assert CasesFor(calls + [x], suite) == h + (CasesFor(calls[1..], suite) + t);
      assert h + (CasesFor(calls[1..], suite) + t) == (h + CasesFor(calls[1..], suite)) + t;
    }
  }

  /** Registration keeps insertion order within a suite, and a suite exists
      exactly when some call named it. */
  lemma RegisterKeepsCallOrder(calls: seq<Registration>)
    ensures forall s :: s in Register(calls) <==> exists i :: 0 <= i < |calls| && calls[i].suite == s
    ensures forall s :: s in Register(calls) ==> Register(calls)[s] == CasesFor(calls, s)
  {
    RegisterNamesSuites(calls);
    RegisterCollectsCases(calls);
  }

  /** A suite exists exactly when some call named it. */
  lemma {:induction false} RegisterNamesSuites(calls: seq<Registration>)
    ensures forall s :: s in Register(calls) <==> exists i :: 0 <= i < |calls| && calls[i].suite == s
    decreases |calls|
  {
    if calls != [] {
      var init, last := calls[..|calls| - 1], calls[|calls| - 1];
      RegisterNamesSuites(init);
      forall s
        ensures s in Register(calls) <==> exists i :: 0 <= i < |calls| && calls[i].suite == s
      {
        if s in Register(init) {
          var i :| 0 <= i < |init| && init[i].suite == s;
          assert calls[i].suite == s;
        }
        if exists i :: 0 <= i < |calls| && calls[i].suite == s {
          var i :| 0 <= i < |calls| && calls[i].suite == s;
          if i < |init| {
            assert init[i].suite == s;
          }
        }
      }
    }
  }

  /** Each suite holds the cases registered for it, in call order. */
  lemma {:induction false} RegisterCollectsCases(calls: seq<Registration>)
    ensures forall s :: s in Register(calls) ==> Register(calls)[s] == CasesFor(calls, s)
    decreases |calls|
  {
    if calls != [] {
      var init, last := calls[..|calls| - 1], calls[|calls| - 1];
      RegisterCollectsCases(init);
      RegisterNamesSuites(init);
      assert calls == init + [last];
      forall s | s in Register(calls)
        ensures Register(calls)[s] == CasesFor(calls, s)
      {
        CasesForSnoc(init, last, s);
        if s !in Register(init) {
          CasesForEmpty(init, s);
        }
      }
    }
  }

  lemma {:induction false} CasesForEmpty(calls: seq<Registration>, suite: string)
    requires forall i :: 0 <= i < |calls| ==> calls[i].suite != suite
    ensures CasesFor(calls, suite) == []
    decreases |calls|
  {
    if calls != [] {
      CasesForEmpty(calls[1..], suite);
    }
  }
}
