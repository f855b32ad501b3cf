# PopQuiz suite-execution engine in Dafny

PopQuiz is a single-header C++ unit-test harness. A user-supplied `Setup`
callback registers test cases with `AddTest`. Each case has a suite name, a
case name, a body and a `use` flag (false means "ignored"). The header's own
`main` then does the rest:

- it runs every suite in `std::map` key order, and every case of a suite in
  registration order;
- it counts successes, failures, ignores and milliseconds per suite;
- it builds a JSON document in a `std::stringstream`;
- it optionally writes that document to a file;
- it returns 1 when a case with `use == true` failed, or when a case threw
  anything other than `PopQuiz::Exception`.

This project models that engine as pure functions over immutable data and
proves what it computes:

- `Registry`: cases, suites and the `std::map` registry filled by `AddTest`.
- `Order`: the `std::string` ordering `std::map` iterates by, and the sorted
  key sequence.
- `Assertions`: `AssertEqual` (generic and `std::string`) and
  `AssertNoThrow<E>`, each as the outcome it produces.
- `Engine`: the declarative meaning of `main`:
  - how each case is classified;
  - each suite's summary;
  - when the run aborts;
  - the exit code.
- `Summary`: the records and counters `main` reports.
- `Decimal`: `std::to_string` of a non-negative count, and a reader for it.
- `Json`: the exact, unescaped text `main` writes.
- `JsonDecode`: a reader for that text, which inverts the writer when names
  and messages contain no `"`.
- `Driver`: `main` written the way the header writes it. That includes:
  - the `Setup` phase (`AddTest`, `OutputJSON`, `OutputConsole`,
    `POPQUIZ_JSON_OUTPUT()`);
  - the nested loops with their counters and `json_stream` appends;
  - the file write and the return value.

  Each loop is proved to compute exactly what `Engine` specifies.
- `Report`: the JSON text of a completed run decodes to that run's
  summaries.
- `Verdict`: the colour of the per-suite "tests passed" console line, as
  written and corrected (see Findings).
- `Vectors`: the repository's two example test programs, replayed through
  `Setup` and `main`.
- `Wrappers`: an `Option` type. `Concat`: sequence regrouping helpers.

Facts about the header that the model follows:

- Suites run in `std::map` key order, which compares `std::string` byte by
  byte as `unsigned char`. Each Dafny `char` of a key stands for one such
  byte, so the order on `char`s is that byte order. Cases within a suite run in registration order.
- The header defines no `AssertThrow`, no `AddTest<false>` template form and
  no per-case duration budget, although `example/ExampleOne.cpp` uses all
  three.
- The `std::string` form of `AssertEqual` appends `(expected is not actual)`
  directly after the message, with no space before `(`.
- The suite totals record has exactly the fields `count`, `success`,
  `fail`, `ignore` and `total_duration`, in that order.
- When the JSON file cannot be opened, `main` skips the write silently.
- Names and messages are copied into the JSON text without escaping.

## Model

| member | source | states |
|---|---|---|
| Registry.AddTest | PopQuiz.hpp:29-32 | `GetList()[suite].push_back(...)`: the suite gains exactly one case, at its end, and is created if absent; the key set grows by that suite name only; every other suite keeps its cases |
| Registry.Register | PopQuiz.hpp:29-32 | the registry after a sequence of `AddTest` calls, each applied to the result of the previous ones; `Registry.RegisterKeepsCallOrder` states its content |
| Registry.RegisterKeepsCallOrder | PopQuiz.hpp:29-32 | after any sequence of `AddTest` calls, a suite exists exactly when some call named it, and it holds exactly the cases registered for it, in call order (independent reference definition `CasesFor`) |
| Registry.RegisterNamesSuites | PopQuiz.hpp:29-32 | a suite is present in the registry if and only if some `AddTest` call named it |
| Registry.RegisterCollectsCases | PopQuiz.hpp:29-32 | each suite's case list equals the calls naming it, filtered in call order |
| Order.LexLessEqIsFirstDifference | PopQuiz.hpp:18 | the key comparison of `std::map<std::string, Suite>` holds exactly when `a` is a prefix of `b` or `a` has the smaller character at the first position where they differ |
| Order.LexReflexive | PopQuiz.hpp:18 | the key order is reflexive |
| Order.LexAntisymmetric | PopQuiz.hpp:18 | the key order is antisymmetric: keys that compare both ways are equal |
| Order.LexTransitive | PopQuiz.hpp:18 | the key order is transitive |
| Order.LexTotal | PopQuiz.hpp:18 | any two keys are comparable |
| Order.MinKey | PopQuiz.hpp:102 | a non-empty key set has a member no greater than any other member |
| Order.SortedKeys | PopQuiz.hpp:102 | the map's iteration order: every key exactly once, in strictly increasing order |
| Order.SortedKeysUnique | PopQuiz.hpp:102 | any strictly increasing enumeration of the key set is that iteration order |
| Assertions.AssertEqual | PopQuiz.hpp:61-62 | the generic assertion raises `PopQuiz::Exception(msg)` exactly when `e != a`, taken as inequality of the compared values, with `msg` unchanged |
| Assertions.AssertEqualString | PopQuiz.hpp:63-64 | the `std::string` form raises exactly when the strings differ, and the result is always a quiz failure, never a foreign exception |
| Assertions.StringMessageExtendsGeneric | PopQuiz.hpp:61-64 | the string form gives the same verdict as the generic one; its message is `msg`, then `(` with no space, the expected text, ` is not `, the actual text and `)`, in that position and of that length |
| Assertions.AssertNoThrow | PopQuiz.hpp:66-67 | `AssertNoThrow<E>` returns when the body returns or raises an `E`; otherwise it rethrows the body's outcome unchanged; what it raises is never an `E` |
| Assertions.AssertNoThrowIdempotent | PopQuiz.hpp:66-67 | wrapping twice is the same as wrapping once, and the message argument has no effect |
| Decimal.NatToString | PopQuiz.hpp:165 | `std::to_string` of a count gives a non-empty run of digits that starts with `0` only for zero |
| Decimal.DigitsValueOfNatToString | PopQuiz.hpp:165 | the digits printed denote the number |
| Decimal.NatToStringOfDigitsValue | PopQuiz.hpp:165 | every digit string without a superfluous leading zero is what `std::to_string` prints for its value |
| Decimal.ReadNatOfNatToString | PopQuiz.hpp:207-213 | reading a number printed by `std::to_string`, followed by a non-digit, returns that number and the rest of the text |
| Engine.UpToNul | PopQuiz.hpp:139 | `message = e.what()` keeps the text up to the first NUL: a prefix without NUL that stops only at a NUL |
| Engine.RecordOf | PopQuiz.hpp:124-170 | the record of one case that did not abort: its name, status true when the body returned, ignore when `use` is false, its elapsed milliseconds, and the `what()` text up to its first NUL when it failed, empty otherwise; `Engine.RecordsFollowCases` states it per case |
| Engine.Summarize | PopQuiz.hpp:111-172 | the summary of one suite whose cases all ran: one record per case, the case count, the returned, failed and ignored counts and the summed milliseconds; `Engine.SummaryIsConsistent` states how they agree |
| Engine.Run | PopQuiz.hpp:94-219 | the run: aborted when some suite has a case raising a foreign exception; otherwise the summaries of the suites in key order, their JSON document, and whether an included case failed; `Engine.SummariesInKeyOrder` and `Engine.ExitCodeRule` state it |
| Engine.ExitCode | PopQuiz.hpp:229 | the value `main` returns is 0 or 1, and it is 1 exactly when the run aborted (the `return 1` of line 145) or `return_fail` is set |
| Engine.CountsPartition | PopQuiz.hpp:133-146 | every case lands in exactly one of: returned (`test_succeeds`), raised `PopQuiz::Exception` (`test_failures`), raised anything else (abort) |
| Engine.SummaryIsConsistent | PopQuiz.hpp:111-172 | a suite that completes has one record per case; its success, fail and ignore counts and total duration can be recomputed from the records; successes plus failures equal the count; ignores are at most the count |
| Engine.RecordsFollowCases | PopQuiz.hpp:160-167 | the i-th record is the i-th registered case: its name, status exactly when the body returned, ignore exactly when `use` is false, its duration, and its message (empty on success, the captured `what()` otherwise) |
| Engine.UseFlagOnlyMovesIgnores | PopQuiz.hpp:129-130 | changing one case's `use` flag leaves successes, failures and durations unchanged and moves only the ignore count |
| Engine.ExitCodeRule | PopQuiz.hpp:137-146 | together with line 229: the exit code is 0 or 1, and it is 1 exactly when some case raised a foreign exception or some case with `use == true` raised `PopQuiz::Exception` |
| Engine.IgnoredFailuresDoNotFailRun | PopQuiz.hpp:142 | when nothing aborts and every failing case is ignored, the run completes with exit code 0 |
| Engine.ForeignExceptionAborts | PopQuiz.hpp:143-146 | a foreign exception in any case of any suite aborts the whole run with exit code 1 and no report |
| Engine.SummariesInKeyOrder | PopQuiz.hpp:102-110 | a completed run has one summary per suite, named by strictly increasing keys, covering every suite, each summarising exactly that suite's cases |
| Engine.CompletedSuitesConsistent | PopQuiz.hpp:207-214 | every totals record of a completed run agrees with its case records |
| Engine.EmptyRegistry | PopQuiz.hpp:98-102 | with no suites the run completes, the document is `{}` and the exit code is 0 |
| Summary.ConsistentCounts | PopQuiz.hpp:133-146 | in a consistent suite entry, `success + fail == count` and `ignore <= count` |
| Json.CaseJson | PopQuiz.hpp:160-167 | the object for one case record: `name`, `status`, `ignore`, `duration`, then `message` only for a failed case, each field as `main` streams it; `JsonDecode.DecodeCaseRoundTrip` reads it back |
| Json.TotalsJson | PopQuiz.hpp:207-214 | the totals object: `count`, `success`, `fail`, `ignore`, `total_duration`, each printed by `std::to_string`; `JsonDecode.DecodeTotalsRoundTrip` reads it back |
| Json.SuiteJson | PopQuiz.hpp:108-214 | a suite entry: the quoted name, `:[`, the case objects joined by commas, a comma only when the suite has cases, the totals object and `]`; `JsonDecode.DecodeSuiteRoundTrip` reads it back |
| Json.DocumentJson | PopQuiz.hpp:99-219 | the whole document: `{`, the suite entries joined by commas, `}`; `Json.DocumentShape` and `JsonDecode.DocumentRoundTrip` state its shape and that it can be read back |
| Json.DocumentShape | PopQuiz.hpp:99-110 | the document is `{}` for an empty run; otherwise it starts with `{"` and ends with `]}` |
| JsonDecode.DecodeCaseRoundTrip | PopQuiz.hpp:160-167 | a case record without `"` in its texts is read back from its JSON object, whatever text follows |
| JsonDecode.DecodeTotalsRoundTrip | PopQuiz.hpp:207-213 | a totals record is read back from its JSON object |
| JsonDecode.DecodeCasesRoundTrip | PopQuiz.hpp:160-167 | the comma-separated case objects of a suite are read back in order |
| JsonDecode.DecodeSuiteRoundTrip | PopQuiz.hpp:108-214 | a suite entry (name, case objects, totals) is read back, so count and records are both recovered |
| JsonDecode.DecodeSuiteListRoundTrip | PopQuiz.hpp:108-109 | the comma-separated suite entries are read back in order |
| JsonDecode.DocumentRoundTrip | PopQuiz.hpp:99-219 | a document whose names and messages contain no `"` is read back to exactly the summaries it was written from |
| JsonDecode.DocumentInjective | PopQuiz.hpp:99-219 | two such summary lists with the same JSON text are equal |
| Report.RunReportDecodes | PopQuiz.hpp:99-219 | when the suite names, case names and failure messages of a completed run contain no `"`, its JSON text decodes to exactly its summaries |
| Report.SummaryWellFormed | PopQuiz.hpp:139 | a suite with quote-free names and messages produces a summary the reader accepts; the captured message is a prefix of the raised one, so it stays quote-free |
| Driver.Initial | PopQuiz.hpp:29-41 | the static initialisers: no tests, console output on, JSON output off with an empty path |
| Driver.Apply | PopQuiz.hpp:31-43 | one call into the harness changes only what it writes: `AddTest` only the registry, adding its suite name to the keys; `OutputJSON` only the path, and sets `output_json` exactly when that path is non-empty; `OutputConsole` only `output_stdout` |
| Driver.RunSetup | PopQuiz.hpp:29-43 | the harness state after `Setup` made its calls in order, starting from the static initialisers; `Driver.SetupRegistry` and `Driver.LastJsonPathWins` state its content |
| Driver.SetupRegistry | PopQuiz.hpp:29-43 | after `Setup`, the registry is what its `AddTest` calls alone build; output settings do not touch it |
| Driver.JsonOutputFollowsPath | PopQuiz.hpp:39-43 | `output_json` is on exactly when `output_json_path` is non-empty |
| Driver.OtherCallsKeepJsonPath | PopQuiz.hpp:34-43 | calls other than `OutputJSON` leave the JSON path and flag unchanged |
| Driver.LastJsonPathWins | PopQuiz.hpp:41-43 | the last `OutputJSON` call decides both the path and the flag |
| Driver.NoJsonPathNoOutput | PopQuiz.hpp:40-41 | without an `OutputJSON` call the path is empty and no JSON is written |
| Driver.JsonFileName | PopQuiz.hpp:23-27 | `POPQUIZ_JSON_OUTPUT()` always produces a name ending in `.json` |
| Driver.StemBeforeLastDot | PopQuiz.hpp:25 | `substr(0, find_last_of("."))` is a prefix of the file name |
| Driver.JsonFileNameReplacesExtension | PopQuiz.hpp:24-25 | the text after the last `.` is replaced by `json`, and a name without `.` gets `.json` appended |
| Driver.JsonFileNameIdempotent | PopQuiz.hpp:24-25 | applying the renaming to its own result changes nothing |
| Driver.RunCase | PopQuiz.hpp:124-146 | the `try`/`catch` of one case: no record exactly when the body raises a foreign exception; otherwise the record `Engine` specifies, with status true exactly when the body returned and false exactly when it raised `PopQuiz::Exception` |
| Driver.VisitCase | PopQuiz.hpp:119-172 | one pass of the inner loop keeps the counters, records, `json_stream` and `return_fail` equal to their declarative values over the cases seen so far, or stops exactly when the case aborts |
| Driver.RunSuite | PopQuiz.hpp:108-214 | one suite: no summary exactly when a case aborts; otherwise the summary `Engine` specifies, `json_stream` extended by exactly that suite's entry, and `return_fail` set exactly when an included case failed |
| Driver.VisitSuite | PopQuiz.hpp:102-217 | one pass of the outer loop: when no case aborts, the summaries, `json_stream` and `return_fail` afterwards are those of one more suite in key order, with a comma before every entry but the first; otherwise the suite has an aborting case |
| Driver.VisitSuites | PopQuiz.hpp:101-217 | the outer loop stops at a suite that aborts; otherwise it produces the summaries of all suites, the document text up to its closing `}`, and the `return_fail` rule |
| Driver.RunMain | PopQuiz.hpp:94-219 | the loops of `main` compute exactly the declarative run: same summaries, same JSON text, same `return_fail`, or an abort |
| Driver.RunProcess | PopQuiz.hpp:221-229 | the exit code is the run's exit code; a file is written exactly when the run completed, a JSON path is set and `fopen` succeeds; it holds the document up to its first NUL, and it is named by the configured path up to its first NUL, as `c_str()` hands it to `fopen` |
| Verdict.SuccessColourAsWritten | PopQuiz.hpp:174-191 | the line, and with it a colour, exists exactly for non-empty suites (`if (test_count > 0)`) |
| Verdict.SuccessColour | PopQuiz.hpp:174-191 | the corrected rule also gives a colour exactly for non-empty suites |
| Verdict.AsWrittenGreenExactly | PopQuiz.hpp:187 | the rule as written is green exactly when the ignored passing cases equal the included failing cases in number |
| Verdict.AsWrittenGreenDespiteFailure | PopQuiz.hpp:187-191 | a suite with an ignored passing case and an included failing case makes the run fail, yet is shown green |
| Verdict.AsWrittenRedWithoutFailure | PopQuiz.hpp:187-191 | a suite with an ignored passing case and an included passing case fails nothing, yet is shown red |
| Verdict.SuccessColourFollowsReturnFail | PopQuiz.hpp:142 | the corrected colour of a completed non-empty suite is red exactly when the suite sets `return_fail` |
| Verdict.RedSuiteFailsRun | PopQuiz.hpp:229 | a suite shown red by the corrected rule means the run exits with 1 |
| Vectors.ExampleOneSettings | example/ExampleOne.unit_test.cpp:5-6 | example one turns JSON output on, with the path `ExampleOne.unit_test.json` |
| Vectors.ExampleOneVector | example/ExampleOne.unit_test.cpp:3-19 | example one completes with one suite: count 3, success 2, fail 1, ignore 1, the durations summed, exit code 0 |
| Vectors.ExampleTwoSettings | example/ExampleTwo.unit_test.cpp:3-5 | example two turns JSON output on, with the path `__FILE__` cut at its last `.` plus `.json` |
| Vectors.ExampleTwoVector | example/ExampleTwo.unit_test.cpp:3-18 | example two completes with one suite: count 3, success 2, fail 1, ignore 2, the durations summed, exit code 0 |

## Left out

- Console output is not modelled. That covers every `_POPQUIZ_P*` print, the
  colour escape codes, the Windows console calls, and the `OutputConsole`
  flag's effect. `OutputConsole` is recorded in the configuration, and the
  colour rule of the summary line is kept (module `Verdict`).
- The percentages printed with `%3.2lf` (PopQuiz.hpp:179-185) are left out.
  They are floating point and reach only the console.
- Time is not modelled. Each case body's elapsed whole milliseconds
  (`duration_cast<milliseconds>(end - begin).count()`) is given as an input
  `nat`, because the model has no clock.
- Case bodies (`std::function<void(void)>`) are abstracted to the outcome
  they produce. That outcome is one of three: they return, they raise a
  `PopQuiz::Exception` with a message, or they raise something else.
- `catch (const E&)` is abstracted: C++ exception-type matching, including
  inheritance, becomes equality of an exception-kind tag.
- Driver.RunProcess: whether `fopen` succeeds is the parameter `fileOpens`. File
  system effects are not modelled. The file is stated as a pair: the name
  `fopen` receives and the text `fprintf` writes, each cut at its first
  NUL.
- Counters are unbounded naturals. `size_t` and `int64_t` cannot overflow
  for any realistic number of cases or milliseconds, so wrap-around is not
  modelled.
- Negative durations are excluded. A steady clock never runs backwards, so
  durations are `nat`.
- `AssertThrow`, `AddTest<false>` and duration budgets, as used by
  `example/ExampleOne.cpp`, are left out: they do not exist in the header.
  Example two's `AssertEqual("Pi", "pi", ...)` instantiates the generic
  template on two string literals, so its message is the plain
  `Almost Equal!`.
- Assertions.AssertEqual: `e != a` is modelled as inequality of Dafny
  values, not as `T`'s own `operator!=`. For `T = const char[N]` (two string
  literals, as in example two) C++ compares the arrays' addresses, so
  `AssertEqual("Pi", "Pi", m)` may raise where the model returns, because
  whether equal literals share storage is unspecified. For `double`, a NaN is
  never equal to itself. Example two's verdict is unaffected: literals with
  different contents are always distinct objects.
- JsonDecode.DocumentRoundTrip and Report.RunReportDecodes hold only for
  names and messages without `"`. The writer does not escape, so a quote
  makes the text ambiguous.

## Findings

| source | as written | input that shows it | evidently intended | confidence | as-written member | corrected member |
|---|---|---|---|---|---|---|
| PopQuiz.hpp:187 | the suite's "tests passed" line is green when `test_succeeds + test_ignores == test_count`; an ignored case that passed is counted in both terms | suite [ignored case that returns, included case that raises `PopQuiz::Exception`]: 1 + 1 == 2 shows green, although the run exits with 1; suite [ignored case that returns, included case that returns]: 2 + 1 != 2 shows red, although nothing failed | green exactly when no included case failed, which is when the suite leaves `return_fail` untouched | not executed | Verdict.AsWrittenGreenDespiteFailure | Verdict.SuccessColourFollowsReturnFail |
