/** The JSON text `main` builds in `json_stream`. Names and messages are
    copied into it verbatim: nothing is escaped. */
module Json {
  import opened Summary
  import opened Decimal

  function BoolText(b: bool): string {
    if b then "true" else "false"
  }

  /** Elements separated by single commas. */
  function Join(parts: seq<string>): string
    decreases |parts|
  {
    if |parts| == 0 then ""
    else if |parts| == 1 then parts[0]
    else parts[0] + "," + Join(parts[1..])
  }

  /** Appending one element, as the loop in `main` does: a comma goes
      before every element but the first. */
  lemma {:induction false} JoinSnoc(parts: seq<string>, p: string)
    ensures Join(parts + [p]) == Join(parts) + (if |parts| > 0 then "," else "") + p
    decreases |parts|
  {
    if |parts| > 1 {
      assert (parts + [p])[1..] == parts[1..] + [p];
      JoinSnoc(parts[1..], p);
    } else if |parts| == 1 {
      assert (parts + [p])[1..] == [p];
    } else {
      assert parts + [p] == [p];
    }
  }

  /** A case record: `name,status,ignore,duration`, then `message` only when
      the case failed. */
  function CaseJson(r: CaseRecord): string {
    "{\"name\":\"" + r.name + "\",\"status\":" + BoolText(r.status)
    + ",\"ignore\":" + BoolText(r.ignore)
    + ",\"duration\":" + NatToString(r.duration)
    + (if r.status then "" else ",\"message\":\"" + r.message + "\"")
    + "}"
  }

  function CaseJsons(rs: seq<CaseRecord>): (js: seq<string>)
    ensures |js| == |rs|
  {
    seq(|rs|, i requires 0 <= i < |rs| => CaseJson(rs[i]))
  }

  /** The totals record that closes every suite entry. */
  function TotalsJson(s: SuiteSummary): string {
    "{\"count\":" + NatToString(s.count)
    + ",\"success\":" + NatToString(s.succeeds)
    + ",\"fail\":" + NatToString(s.failures)
    + ",\"ignore\":" + NatToString(s.ignores)
    + ",\"total_duration\":" + NatToString(s.totalDuration)
    + "}"
  }

  /** A suite entry: `"name":[`, the case records, a comma only when the
      suite has cases, the totals record, `]`. */
  function SuiteJson(s: SuiteSummary): string {
    "\"" + s.name + "\":["
    + Join(CaseJsons(s.records))
    + (if s.count > 0 then "," else "")
    + TotalsJson(s)
    + "]"
  }

  function SuiteJsons(ss: seq<SuiteSummary>): (js: seq<string>)
    ensures |js| == |ss|
  {
    seq(|ss|, i requires 0 <= i < |ss| => SuiteJson(ss[i]))
  }

  /** The whole document: `{`, the suite entries separated by commas, `}`. */
  function DocumentJson(ss: seq<SuiteSummary>): string {
    "{" + Join(SuiteJsons(ss)) + "}"
  }

  /** An empty registry produces `{}`; any other document starts with `{"`
      and ends with `]}`. */
  lemma DocumentShape(ss: seq<SuiteSummary>)
    ensures ss == [] ==> DocumentJson(ss) == "{}"
    ensures ss != [] ==> DocumentJson(ss)[..2] == "{\"" && DocumentJson(ss)[|DocumentJson(ss)| - 2..] == "]}"
  {
    if ss != [] {
      var js := SuiteJsons(ss);
      forall i | 0 <= i < |js|
        ensures |js[i]| > 0 && js[i][0] == '"' && js[i][|js[i]| - 1] == ']'
      {
        SuiteJsonBounds(ss[i]);
      }
      BracedJoinBounds(js);
    }
  }

  /** Braces around entries that each start with `"` and end with `]`. */
  lemma BracedJoinBounds(parts: seq<string>)
    requires |parts| > 0
    requires forall i :: 0 <= i < |parts| ==> |parts[i]| > 0 && parts[i][0] == '"' && parts[i][|parts[i]| - 1] == ']'
    ensures var d := "{" + Join(parts) + "}"; d[..2] == "{\"" && d[|d| - 2..] == "]}"
  {
    JoinBounds(parts);
    var j := Join(parts);
    var d := "{" + j + "}";
    assert d[1] == j[0];
    assert d[|d| - 2] == j[|j| - 1];
  }

  /** A suite entry starts with the quote before its name and ends with
      the bracket after its totals. */
  lemma SuiteJsonBounds(s: SuiteSummary)
    ensures |SuiteJson(s)| > 0 && SuiteJson(s)[0] == '"' && SuiteJson(s)[|SuiteJson(s)| - 1] == ']'
  {
  }

  /** A non-empty join starts with its first element's first character and
      ends with its last element's last character. */
  lemma {:induction false} JoinBounds(parts: seq<string>)
    requires |parts| > 0 && forall i :: 0 <= i < |parts| ==> |parts[i]| > 0
    ensures |Join(parts)| > 0
    ensures Join(parts)[0] == parts[0][0]
    ensures Join(parts)[|Join(parts)| - 1] == parts[|parts| - 1][|parts[|parts| - 1]| - 1]
    decreases |parts|
  {
    if |parts| > 1 {
      JoinBounds(parts[1..]);
    }
  }
}
