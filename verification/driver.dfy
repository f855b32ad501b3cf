/** `main` itself: the registration phase run by `Setup`, the nested loop
    over suites and cases that fills the counters and `json_stream` piece
    by piece, and the final write of the JSON file and the exit code. */
module Driver {
  import opened Wrappers
  import opened Registry
  import opened Summary
  import opened Json
  import opened Order
  import opened Engine
  import opened Concat

  /** One call `Setup` may make into the harness. */
  datatype SetupCall =
    | Add(registration: Registration)
    | SetJsonPath(path: string)
    | SetConsole(out: bool)

  /** The harness's global state after `Setup`: the registry, `output_json`,
      `output_json_path` and `output_stdout`. */
  datatype Config = Config(reg: Registry, outputJson: bool, jsonPath: string, stdout: bool)

  /** The static initialisers: no tests, no JSON output, console output on. */
  const Initial := Config(map[], false, "", true)

  /** One call into the harness: `AddTest` touches only the registry,
      `OutputJSON` only the path and `output_json`, `OutputConsole` only
      `output_stdout`. */
  function Apply(c: Config, call: SetupCall): (r: Config)
    ensures !call.Add? ==> r.reg == c.reg
    ensures call.Add? ==> r.reg.Keys == c.reg.Keys + {call.registration.suite}
    ensures call.SetJsonPath? ==> r.jsonPath == call.path && (r.outputJson <==> r.jsonPath != "")
    ensures !call.SetJsonPath? ==> r.jsonPath == c.jsonPath && r.outputJson == c.outputJson
    ensures call.SetConsole? ==> r.stdout == call.out
    ensures !call.SetConsole? ==> r.stdout == c.stdout
  {
    match call
    case Add(x) => c.(reg := AddTest(c.reg, x.suite, x.name, x.body, x.use))
    case SetJsonPath(path) => c.(jsonPath := path, outputJson := path != "")
    case SetConsole(out) => c.(stdout := out)
  }

  /** The state after `Setup` made `calls` in order. */
  function RunSetup(calls: seq<SetupCall>): Config
    decreases |calls|
  {
    if calls == [] then Initial else Apply(RunSetup(calls[..|calls| - 1]), calls[|calls| - 1])
  }

  /** The `AddTest` calls among `calls`, in order. */
  function Additions(calls: seq<SetupCall>): seq<Registration>
    decreases |calls|
  {
    if calls == [] then []
    else Additions(calls[..|calls| - 1]) + (if calls[|calls| - 1].Add? then [calls[|calls| - 1].registration] else [])
  }

  /** Output settings do not touch the registry: it is what the `AddTest`
      calls alone build. */
  lemma {:induction false} SetupRegistry(calls: seq<SetupCall>)
    ensures RunSetup(calls).reg == Register(Additions(calls))
    decreases |calls|
  {
    if calls != [] {
      var init := calls[..|calls| - 1];
      var call := calls[|calls| - 1];
      SetupRegistry(init);
      if call.Add? {
        assert Additions(calls) == Additions(init) + [call.registration];
        RegisterSnoc(Additions(init), call.registration);
      } else {
        assert Additions(calls) == Additions(init);
      }
    }
  }

  /** `output_json` is on exactly when the path is non-empty. */
  lemma {:induction false} JsonOutputFollowsPath(calls: seq<SetupCall>)
    ensures RunSetup(calls).outputJson <==> RunSetup(calls).jsonPath != ""
    decreases |calls|
  {
    if calls != [] {
      JsonOutputFollowsPath(calls[..|calls| - 1]);
    }
  }

  /** Calls other than `OutputJSON` leave the JSON settings as they were. */
  lemma {:induction false} OtherCallsKeepJsonPath(calls: seq<SetupCall>, more: seq<SetupCall>)
    requires forall j :: 0 <= j < |more| ==> !more[j].SetJsonPath?
    ensures RunSetup(calls + more).jsonPath == RunSetup(calls).jsonPath
    ensures RunSetup(calls + more).outputJson == RunSetup(calls).outputJson
    decreases |more|
  {
    if more == [] {
      assert calls + more == calls;
    } else {
      var all := calls + more;
      assert all[..|all| - 1] == calls + more[..|more| - 1];
      assert all[|all| - 1] == more[|more| - 1];
      OtherCallsKeepJsonPath(calls, more[..|more| - 1]);
    }
  }

  /** The last `OutputJSON` call decides the path. */
  lemma LastJsonPathWins(calls: seq<SetupCall>, i: int)
    requires 0 <= i < |calls| && calls[i].SetJsonPath?
    requires forall j :: i < j < |calls| ==> !calls[j].SetJsonPath?
    ensures RunSetup(calls).jsonPath == calls[i].path
    ensures RunSetup(calls).outputJson <==> calls[i].path != ""
  {
    var head, more := calls[..i + 1], calls[i + 1..];
    assert calls == head + more;
    assert head[..|head| - 1] == calls[..i];
    forall j | 0 <= j < |more|
      ensures !more[j].SetJsonPath?
    {
      assert more[j] == calls[i + 1 + j];
    }
    OtherCallsKeepJsonPath(head, more);
  }

  /** Without an `OutputJSON` call no JSON file is written. */
  lemma NoJsonPathNoOutput(calls: seq<SetupCall>)
    requires forall j :: 0 <= j < |calls| ==> !calls[j].SetJsonPath?
    ensures RunSetup(calls).jsonPath == "" && !RunSetup(calls).outputJson
  {
    assert [] + calls == calls;
    OtherCallsKeepJsonPath([], calls);
  }

  /** `POPQUIZ_JSON_OUTPUT()`: the source file name up to its last `.`,
      then `.json`; a name without `.` is kept whole. */
  function JsonFileName(file: string): (r: string)
    ensures |r| >= 5 && r[|r| - 5..] == ".json"
  {
    StemBeforeLastDot(file) + ".json"
  }

  /** `file.substr(0, file.find_last_of("."))`. */
  function StemBeforeLastDot(file: string): (stem: string)
    ensures stem <= file
    decreases |file|
  {
    if '.' !in file then file
    else if file[|file| - 1] == '.' then file[..|file| - 1]
    else StemBeforeLastDot(file[..|file| - 1])
  }

  /** The extension after the last `.` is replaced by `json`; a name with
      no `.` just gains `.json`. */
  lemma {:induction false} JsonFileNameReplacesExtension(stem: string, ext: string)
    requires '.' !in ext
    ensures JsonFileName(stem + "." + ext) == stem + ".json"
    ensures '.' !in stem ==> JsonFileName(stem) == stem + ".json"
    decreases |ext|
  {
    var f := stem + "." + ext;
    assert f[|stem|] == '.';
    if ext == [] {
      assert f[..|f| - 1] == stem;
    } else {
      assert f[..|f| - 1] == stem + "." + ext[..|ext| - 1];
      JsonFileNameReplacesExtension(stem, ext[..|ext| - 1]);
    }
  }

  /** Applying the macro's rule to its own result changes nothing. */
  lemma JsonFileNameIdempotent(file: string)
    ensures JsonFileName(JsonFileName(file)) == JsonFileName(file)
  {
    var stem := StemBeforeLastDot(file);
    assert stem + ".json" == stem + "." + "json";
    JsonFileNameReplacesExtension(stem, "json");
  }

  /** The JSON text after one more case record. */
  lemma CaseTextStep(entryStart: string, json: string, records: seq<CaseRecord>, record: CaseRecord,
                     separated: string, json': string)
    requires json == entryStart + Join(CaseJsons(records))
    requires separated == json + (if |records| > 0 then "," else "")
    requires json' == separated + CaseJson(record)
    ensures json' == entryStart + Join(CaseJsons(records + [record]))
  {
    CaseJsonsSnoc(records, record);
    AppendEntry(entryStart, json, CaseJsons(records), CaseJson(record));
  }

  /** `return_fail` after one more case: set when the case failed and its
      `use` flag is on. */
  lemma CaseFailStep(cases: seq<Case>, n: int, returnFail: bool, returnFail0: bool, record: CaseRecord, returnFail': bool)
    requires 0 <= n < |cases| && !Aborts(cases[n]) && record == RecordOf(cases[n])
    requires returnFail0 == (returnFail || SuiteFails(cases[..n]))
    requires returnFail' == (returnFail0 || (!record.status && cases[n].use))
    ensures returnFail' == (returnFail || SuiteFails(cases[..n + 1]))
  {
    PrefixSnoc(cases, n);
    SuiteFailsSnoc(cases[..n], cases[n]);
  }

  /** `SuiteFails` of a suite grown by one case. */
  lemma SuiteFailsSnoc(cs: seq<Case>, c: Case)
    ensures SuiteFails(cs + [c]) <==> SuiteFails(cs) || (c.use && FailsQuiz(c))
    ensures SuiteAborts(cs + [c]) <==> SuiteAborts(cs) || Aborts(c)
  {
    var ds := cs + [c];
    assert ds[|cs|] == c;
    if SuiteFails(cs) {
      var i :| 0 <= i < |cs| && cs[i].use && FailsQuiz(cs[i]);
      assert ds[i] == cs[i];
    }
    if SuiteAborts(cs) {
      var i :| 0 <= i < |cs| && Aborts(cs[i]);
      assert ds[i] == cs[i];
    }
    forall i | 0 <= i < |cs|
      ensures ds[i] == cs[i]
    {
    }
  }

  /** The `try` block around one case body: `test_success` and `message`
      from the handler that ran, the elapsed time, and the record `main`
      keeps. `None` is the `catch (...)` handler, where `main` returns 1. */
  method RunCase(test: Case) returns (r: Option<CaseRecord>)
    ensures r.None? <==> Aborts(test)
    ensures r.Some? ==> r.value == RecordOf(test)
    ensures r.Some? ==> (r.value.status <==> Passes(test)) && (!r.value.status <==> FailsQuiz(test))
  {
    var testSuccess := true;
    var message := "";
    match test.body.effect {
      case Returns =>
      case RaisesQuiz(m) =>
        message := UpToNul(m);
        testSuccess := false;
      case RaisesOther(_) =>
        return None;
    }
    var duration := test.body.elapsedMs;
    r := Some(CaseRecord(test.name, testSuccess, !test.use, duration, message));
  }

  /** The locals of `main`'s inner loop: `test_ignores`, `test_failures`,
      `test_succeeds`, `test_duration`, the records kept so far, and the
      `json_stream` and `return_fail` it updates. */
  datatype SuiteLocals = SuiteLocals(
    ignores: nat, failures: nat, succeeds: nat, duration: nat,
    records: seq<CaseRecord>, json: string, returnFail: bool)

  /** The locals after the first `n` cases of a suite ran without aborting,
      the suite's entry having been opened as `entryStart` and `return_fail`
      having been `returnFail` before the suite. */
  predicate Progressed(cases: seq<Case>, n: int, entryStart: string, returnFail: bool, l: SuiteLocals) {
    && Tallied(cases, n, l.succeeds, l.failures, l.ignores, l.duration, l.records)
    && l.json == entryStart + Join(CaseJsons(l.records))
    && l.returnFail == (returnFail || SuiteFails(cases[..n]))
  }

  /** One pass of the inner loop: run the case, bump the counters, append
      its record to `json_stream`. `None` when it aborts the run. */
  method VisitCase(cases: seq<Case>, n: int, ghost entryStart: string, ghost returnFail: bool, l: SuiteLocals)
    returns (r: Option<SuiteLocals>)
    requires Progressed(cases, n, entryStart, returnFail, l) && n < |cases|
    ensures r.None? <==> Aborts(cases[n])
    ensures r.Some? ==> Progressed(cases, n + 1, entryStart, returnFail, r.value)
  {
    var test := cases[n];
    var testIgnores, testFailures, testSucceeds, testDuration := l.ignores, l.failures, l.succeeds, l.duration;
    var json, fail := l.json, l.returnFail;
    var testUse := test.use;
    if !testUse {
      testIgnores := testIgnores + 1;
    }
    var outcome := RunCase(test);
    if outcome.None? {
      return None;
    }
    var record := outcome.value;
    if record.status {
      testSucceeds := testSucceeds + 1;
    } else {
      testFailures := testFailures + 1;
      fail := fail || testUse;
    }
    testDuration := testDuration + record.duration;
    if n > 0 {
      json := json + ",";
    }
    ghost var separated := json;
    json := json + CaseJson(record);
    CaseStep(cases, n, l.succeeds, l.failures, l.ignores, l.duration, l.records, record,
             testSucceeds, testFailures, testIgnores, testDuration);
    CaseTextStep(entryStart, l.json, l.records, record, separated, json);
    CaseFailStep(cases, n, returnFail, l.returnFail, record, fail);
    r := Some(SuiteLocals(testIgnores, testFailures, testSucceeds, testDuration, l.records + [record], json, fail));
  }

  /** The inner loop of `main` for one suite: runs its cases in
      registration order, updates the counters and `return_fail`, and
      appends the suite's entry to `json_stream`. `None` means a case
      raised something other than `PopQuiz::Exception`, where `main`
      returns 1 on the spot. */
  method RunSuite(name: string, cases: seq<Case>, json: string, returnFail: bool)
    returns (summary: Option<SuiteSummary>, json': string, returnFail': bool)
    ensures summary.None? <==> SuiteAborts(cases)
    ensures summary.Some? ==> summary.value == Summarize(name, cases)
    ensures summary.Some? ==> json' == json + SuiteJson(summary.value)
    ensures summary.Some? ==> (returnFail' <==> returnFail || SuiteFails(cases))
  {
    var entryStart := json + "\"" + name + "\":[";
    var l := SuiteLocals(0, 0, 0, 0, [], entryStart, returnFail);
    var testNumber := 0;
    var testCount := |cases|;
    while testNumber < testCount
      invariant 0 <= testNumber <= testCount
      invariant Progressed(cases, testNumber, entryStart, returnFail, l)
    {
      var next := VisitCase(cases, testNumber, entryStart, returnFail, l);
      if next.None? {
        return None, l.json, l.returnFail;
      }
      l := next.value;
      testNumber := testNumber + 1;
    }
    assert cases[..testCount] == cases;
    var totals := SuiteSummary(name, l.records, testCount, l.succeeds, l.failures, l.ignores, l.duration);
    json' := l.json;
    if testCount > 0 {
      json' := json' + ",";
    }
    json' := json' + TotalsJson(totals) + "]";
    returnFail' := l.returnFail;
    summary := Some(totals);
    assert json' == json + SuiteJson(totals) by {
      var tsep := if testCount > 0 then "," else "";
      var cj := Join(CaseJsons(l.records));
      assert json' == json + "\"" + name + "\":[" + cj + tsep + TotalsJson(totals) + "]";
      NestSuiteAppends(json, "\"", name, "\":[", cj, tsep, TotalsJson(totals), "]");
    }
  }

  /** The state of `main` after the first `n` suites in key order have
      run to completion. */
  predicate Visited(reg: Registry, keys: seq<string>, n: int, summaries: seq<SuiteSummary>, json: string, returnFail: bool) {
    && (forall k :: k in keys ==> k in reg)
    && 0 <= n <= |keys|
    && (forall j :: 0 <= j < n ==> !SuiteAborts(reg[keys[j]]))
    && summaries == SummariesOf(reg, keys[..n])
    && json == "{" + Join(SuiteJsons(summaries))
    && (returnFail <==> exists j :: 0 <= j < n && SuiteFails(reg[keys[j]]))
  }

  /** `main`: run the suites in key order and close the document with `}`,
      or return 1 as soon as a case throws something other than a
      `PopQuiz::Exception`. */
  method RunMain(reg: Registry) returns (r: RunResult)
    ensures r == Run(reg)
  {
    var keys := SortedKeys(reg.Keys);
    var aborted, at, summaries, json, returnFail := VisitSuites(reg, keys);
    if aborted {
      AbortedRun(reg, keys, at);
      return Aborted;
    }
    CompletedRun(reg, keys, summaries, json, returnFail);
    r := Completed(summaries, json + "}", returnFail);
  }

  /** The outer loop of `main`: every suite in `keys` order, entries
      separated by commas, stopping at the first suite that aborts. */
  method VisitSuites(reg: Registry, keys: seq<string>)
    returns (aborted: bool, at: nat, summaries: seq<SuiteSummary>, json: string, returnFail: bool)
    requires forall k :: k in keys ==> k in reg
    ensures aborted ==> at < |keys| && SuiteAborts(reg[keys[at]])
    ensures !aborted ==> summaries == SummariesOf(reg, keys)
    ensures !aborted ==> json + "}" == DocumentJson(summaries)
    ensures !aborted ==> forall j :: 0 <= j < |keys| ==> !SuiteAborts(reg[keys[j]])
    ensures !aborted ==> (returnFail <==> exists j :: 0 <= j < |keys| && SuiteFails(reg[keys[j]]))
  {
    returnFail := false;
    json := "{";
    summaries := [];
    var suiteNumber := 0;
    while suiteNumber < |keys|
      invariant Visited(reg, keys, suiteNumber, summaries, json, returnFail)
      decreases |keys| - suiteNumber
    {
      aborted, summaries, json, returnFail := VisitSuite(reg, keys, suiteNumber, summaries, json, returnFail);
      if aborted {
        return true, suiteNumber, summaries, json, returnFail;
      }
      suiteNumber := suiteNumber + 1;
    }
    VisitedAll(reg, keys, summaries, json, returnFail);
    return false, 0, summaries, json, returnFail;
  }

  /** A suite that aborts makes the whole run abort. */
  lemma AbortedRun(reg: Registry, keys: seq<string>, at: nat)
    requires forall k :: k in keys ==> k in reg
    requires at < |keys| && SuiteAborts(reg[keys[at]])
    ensures Run(reg) == Aborted
  {
    assert keys[at] in reg;
  }

  /** One pass of the outer loop: the comma before every entry but the
      first, then the suite's entry, or `return 1` when a case aborts. */
  method VisitSuite(reg: Registry, keys: seq<string>, n: int, summaries: seq<SuiteSummary>, json: string, returnFail: bool)
    returns (aborted: bool, summaries': seq<SuiteSummary>, json': string, returnFail': bool)
    requires Visited(reg, keys, n, summaries, json, returnFail) && n < |keys|
    ensures aborted ==> SuiteAborts(reg[keys[n]])
    ensures !aborted ==> Visited(reg, keys, n + 1, summaries', json', returnFail')
  {
    var name := keys[n];
    json' := json;
    if n > 0 {
      json' := json' + ",";
    }
    ghost var separated := json';
    assert separated == json + (if n > 0 then "," else "");
    var result;
    result, json', returnFail' := RunSuite(name, reg[name], json', returnFail);
    if result.None? {
      return true, summaries, json', returnFail';
    }
    var summary := result.value;
    aborted := false;
    summaries' := summaries + [summary];
    SuiteStep(reg, keys, n, summaries, json, returnFail, summary, separated, json', returnFail');
  }

  /** What one more completed suite adds to the state of the outer loop:
      its summary, a comma unless it is the first entry, its entry, and its
      failures in `return_fail`. */
  lemma SuiteStep(reg: Registry, keys: seq<string>, n: int, summaries: seq<SuiteSummary>, json: string, returnFail: bool,
                  summary: SuiteSummary, separated: string, json': string, returnFail': bool)
    requires Visited(reg, keys, n, summaries, json, returnFail) && n < |keys|
    requires !SuiteAborts(reg[keys[n]]) && summary == Summarize(keys[n], reg[keys[n]])
    requires json' == separated + SuiteJson(summary) && separated == json + (if n > 0 then "," else "")
    requires returnFail' <==> returnFail || SuiteFails(reg[keys[n]])
    ensures Visited(reg, keys, n + 1, summaries + [summary], json', returnFail')
  {
    SummaryStep(reg, keys, n, summaries, returnFail, summary, returnFail');
    SuiteJsonsSnoc(summaries, summary);
    AppendEntry("{", json, SuiteJsons(summaries), SuiteJson(summary));
  }

  lemma SummaryStep(reg: Registry, keys: seq<string>, n: int, summaries: seq<SuiteSummary>, returnFail: bool,
                    summary: SuiteSummary, returnFail': bool)
    requires forall k :: k in keys ==> k in reg
    requires 0 <= n < |keys|
    requires forall j :: 0 <= j < n ==> !SuiteAborts(reg[keys[j]])
    requires summaries == SummariesOf(reg, keys[..n])
    requires returnFail <==> exists j :: 0 <= j < n && SuiteFails(reg[keys[j]])
    requires !SuiteAborts(reg[keys[n]]) && summary == Summarize(keys[n], reg[keys[n]])
    requires returnFail' <==> returnFail || SuiteFails(reg[keys[n]])
    ensures forall j :: 0 <= j < n + 1 ==> !SuiteAborts(reg[keys[j]])
    ensures summaries + [summary] == SummariesOf(reg, keys[..n + 1])
    ensures |summaries| == n
    ensures returnFail' <==> exists j :: 0 <= j < n + 1 && SuiteFails(reg[keys[j]])
  {
    PrefixSnoc(keys, n);
  }

  /** Leaving the outer loop normally: the state is what `Run` describes. */
  lemma CompletedRun(reg: Registry, keys: seq<string>, summaries: seq<SuiteSummary>, json: string, returnFail: bool)
    requires keys == SortedKeys(reg.Keys)
    requires summaries == SummariesOf(reg, keys)
    requires json + "}" == DocumentJson(summaries)
    requires forall j :: 0 <= j < |keys| ==> !SuiteAborts(reg[keys[j]])
    requires returnFail <==> exists j :: 0 <= j < |keys| && SuiteFails(reg[keys[j]])
    ensures Run(reg) == Completed(summaries, json + "}", returnFail)
  {
    EveryKeyVisited(reg, keys, returnFail);
  }

  /** All suites visited: the summaries and the document are those of the
      whole key sequence. */
  lemma VisitedAll(reg: Registry, keys: seq<string>, summaries: seq<SuiteSummary>, json: string, returnFail: bool)
    requires Visited(reg, keys, |keys|, summaries, json, returnFail)
    ensures summaries == SummariesOf(reg, keys)
    ensures json + "}" == DocumentJson(summaries)
    ensures forall j :: 0 <= j < |keys| ==> !SuiteAborts(reg[keys[j]])
    ensures returnFail <==> exists j :: 0 <= j < |keys| && SuiteFails(reg[keys[j]])
  {
    assert keys[..|keys|] == keys;
  }

  /** Facts about every position of the key sequence are facts about every
      suite of the registry. */
  lemma EveryKeyVisited(reg: Registry, keys: seq<string>, returnFail: bool)
    requires keys == SortedKeys(reg.Keys)
    requires forall j :: 0 <= j < |keys| ==> !SuiteAborts(reg[keys[j]])
    requires returnFail <==> exists j :: 0 <= j < |keys| && SuiteFails(reg[keys[j]])
    ensures !exists k :: k in reg && SuiteAborts(reg[k])
    ensures returnFail <==> exists k :: k in reg && SuiteFails(reg[k])
  {
    forall k | k in reg
      ensures !SuiteAborts(reg[k]) && (SuiteFails(reg[k]) ==> returnFail)
    {
      var j :| 0 <= j < |keys| && keys[j] == k;
    }
  }

  lemma CaseJsonsSnoc(rs: seq<CaseRecord>, r: CaseRecord)
    ensures CaseJsons(rs + [r]) == CaseJsons(rs) + [CaseJson(r)]
  {
  }

  lemma SuiteJsonsSnoc(ss: seq<SuiteSummary>, s: SuiteSummary)
    ensures SuiteJsons(ss + [s]) == SuiteJsons(ss) + [SuiteJson(s)]
  {
  }

  /** Appending one more element to a comma-separated list that follows
      `start`: a comma first unless it is the first element. */
  lemma AppendEntry(start: string, doc: string, parts: seq<string>, entry: string)
    requires doc == start + Join(parts)
    ensures doc + (if |parts| > 0 then "," else "") + entry == start + Join(parts + [entry])
  {
    JoinSnoc(parts, entry);
    Assoc3(doc, if |parts| > 0 then "," else "", entry);
    Assoc3(start, Join(parts), (if |parts| > 0 then "," else "") + entry);
  }

  /** The counters and records of `main` after the first `n` cases of a
      suite ran without aborting. */
  predicate Tallied(cases: seq<Case>, n: int, succeeds: nat, failures: nat, ignores: nat, duration: nat,
                    records: seq<CaseRecord>) {
    && 0 <= n <= |cases|
    && !SuiteAborts(cases[..n])
    && succeeds == CountWhere(cases[..n], Passes)
    && failures == CountWhere(cases[..n], FailsQuiz)
    && ignores == CountWhere(cases[..n], IsIgnored)
    && duration == Elapsed(cases[..n])
    && records == Records(cases[..n])
  }

  /** One more case that did not abort moves exactly one of `test_succeeds`
      and `test_failures`, moves `test_ignores` when its `use` flag is off,
      and adds its record. */
  lemma CaseStep(cases: seq<Case>, n: int, succeeds: nat, failures: nat, ignores: nat, duration: nat,
                  records: seq<CaseRecord>, record: CaseRecord,
                  succeeds': nat, failures': nat, ignores': nat, duration': nat)
    requires Tallied(cases, n, succeeds, failures, ignores, duration, records) && n < |cases|
    requires !Aborts(cases[n]) && record == RecordOf(cases[n])
    requires succeeds' == succeeds + (if record.status then 1 else 0)
    requires failures' == failures + (if record.status then 0 else 1)
    requires ignores' == ignores + (if cases[n].use then 0 else 1)
    requires duration' == duration + record.duration
    ensures Tallied(cases, n + 1, succeeds', failures', ignores', duration', records + [record])
  {
    PrefixSnoc(cases, n);
    SuiteFailsSnoc(cases[..n], cases[n]);
    RecordsSnoc(cases[..n + 1]);
  }

  /** One more element of a prefix. */
  lemma PrefixSnoc<T>(s: seq<T>, n: int)
    requires 0 <= n < |s|
    ensures s[..n + 1] == s[..n] + [s[n]]
    ensures s[..n + 1][..n] == s[..n]
  {
  }

  /** The eight pieces of a suite entry appended to `json_stream` one at a
      time equal the entry appended as a whole. */
  lemma NestSuiteAppends(x: string, a: string, b: string, c: string, d: string, e: string, f: string, g: string)
    ensures x + a + b + c + d + e + f + g == x + (a + b + c + d + e + f + g)
  {
  }

  /** What `main` leaves behind: the exit code and, when one was written,
      the JSON file's path and contents. */
  datatype ProcessResult = ProcessResult(exitCode: int, file: Option<(string, string)>)

  /** `main` after `Setup` made `calls`. `fileOpens` stands for whether
      `fopen` succeeds. `fopen` receives `output_json_path.c_str()`, so the
      file it opens is named by the path up to its first NUL, while
      `output_json` compares the whole path with `""`. */
  method RunProcess(calls: seq<SetupCall>, fileOpens: bool) returns (o: ProcessResult)
    ensures o.exitCode == ExitCode(Run(RunSetup(calls).reg))
    ensures o.file.Some? <==>
      Run(RunSetup(calls).reg).Completed? && RunSetup(calls).jsonPath != "" && fileOpens
    ensures o.file.Some? ==>
      o.file.value == (UpToNul(RunSetup(calls).jsonPath), UpToNul(Run(RunSetup(calls).reg).json))
  {
    var config := RunSetup(calls);
    SetupRegistry(calls);
    JsonOutputFollowsPath(calls);
    var r := RunMain(config.reg);
    if r.Aborted? {
      return ProcessResult(1, None);
    }
    var file := None;
    if config.outputJson && fileOpens {
      file := Some((UpToNul(config.jsonPath), UpToNul(r.json)));
    }
    o := ProcessResult(if r.returnFail then 1 else 0, file);
  }
}
