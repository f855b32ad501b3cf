/** What `main` records about a run: one record per executed case and the
    totals of each suite. These are the values the JSON document carries. */
module Summary {

  /** One case as reported: `status` is true when the body returned,
      `ignore` is the negation of the case's `use` flag, `message` is the
      captured failure message (empty when the case passed). */
  datatype CaseRecord = CaseRecord(name: string, status: bool, ignore: bool, duration: nat, message: string)

  /** One suite as reported: its records in case order and the counters
      `test_count`, `test_succeeds`, `test_failures`, `test_ignores` and
      `test_duration`. */
  datatype SuiteSummary = SuiteSummary(
    name: string,
    records: seq<CaseRecord>,
    count: nat,
    succeeds: nat,
    failures: nat,
    ignores: nat,
    totalDuration: nat)

  /** Number of records satisfying `p`. */
  function CountRecords(rs: seq<CaseRecord>, p: CaseRecord -> bool): nat
    decreases |rs|
  {
    if rs == [] then 0
    else CountRecords(rs[..|rs| - 1], p) + (if p(rs[|rs| - 1]) then 1 else 0)
  }

  /** Sum of the `duration` fields of the records. */
  function SumDurations(rs: seq<CaseRecord>): nat
    decreases |rs|
  {
    if rs == [] then 0 else SumDurations(rs[..|rs| - 1]) + rs[|rs| - 1].duration
  }

  predicate Passed(r: CaseRecord) {
    r.status
  }

  predicate Failed(r: CaseRecord) {
    !r.status
  }

  predicate Ignored(r: CaseRecord) {
    r.ignore
  }

  /** A suite entry whose totals record agrees with its case records: one
      record per case, every case counted once as a success or a failure,
      and the total duration the sum of the case durations. */
  predicate Consistent(s: SuiteSummary) {
    && s.count == |s.records|
    && s.succeeds == CountRecords(s.records, Passed)
    && s.failures == CountRecords(s.records, Failed)
    && s.ignores == CountRecords(s.records, Ignored)
    && s.totalDuration == SumDurations(s.records)
  }

  /** In a consistent entry successes and failures add up to the count and
      the ignored cases are among them. */
  lemma {:induction false} ConsistentCounts(s: SuiteSummary)
    requires Consistent(s)
    ensures s.succeeds + s.failures == s.count
    ensures s.ignores <= s.count
  {
    RecordCountsSplit(s.records);
  }

  lemma {:induction false} RecordCountsSplit(rs: seq<CaseRecord>)
    ensures CountRecords(rs, Passed) + CountRecords(rs, Failed) == |rs|
    ensures CountRecords(rs, Ignored) <= |rs|
    decreases |rs|
  {
    if rs != [] {
      RecordCountsSplit(rs[..|rs| - 1]);
    }
  }
}
