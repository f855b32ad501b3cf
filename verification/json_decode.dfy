/** A reader for the document `main` writes. Because names and messages are
    not escaped, it reads them back only when they contain no `"`; under that
    condition every document is read back to the summaries it was built from. */
module JsonDecode {
  import opened Wrappers
  import opened Summary
  import opened Decimal
  import opened Json
  import opened Concat

  predicate NoQuote(t: string) {
    '"' !in t
  }

  /** What the writer can round-trip: quote-free texts, an empty message on
      a passing case. */
  predicate WellFormedRecord(r: CaseRecord) {
    NoQuote(r.name) && NoQuote(r.message) && (r.status ==> r.message == "")
  }

  predicate WellFormedSuite(s: SuiteSummary) {
    && NoQuote(s.name)
    && s.count == |s.records|
    && forall i :: 0 <= i < |s.records| ==> WellFormedRecord(s.records[i])
  }

  function Expect(lit: string, s: string): (r: Option<string>)
    ensures r.Some? <==> lit <= s
    ensures r.Some? ==> s == lit + r.value
  {
    if lit <= s then Some(s[|lit|..]) else None
  }

  lemma ExpectLiteral(lit: string, rest: string)
    ensures Expect(lit, lit + rest) == Some(rest)
  {
    assert (lit + rest)[..|lit|] == lit;
    assert (lit + rest)[|lit|..] == rest;
  }

  /** Reads up to the first `"` and consumes it. */
  function ReadText(s: string): (r: Option<(string, string)>)
    ensures r.Some? ==> NoQuote(r.value.0) && s == r.value.0 + "\"" + r.value.1
    decreases |s|
  {
    if s == [] then None
    else if s[0] == '"' then Some(([], s[1..]))
    else
      var t :- ReadText(s[1..]);
      Some(([s[0]] + t.0, t.1))
  }

  lemma {:induction false} ReadTextOf(t: string, rest: string)
    requires NoQuote(t)
    ensures ReadText(t + "\"" + rest) == Some((t, rest))
    decreases |t|
  {
    var s := t + "\"" + rest;
    if t == [] {
      assert s == "\"" + rest;
      assert s[1..] == rest;
    } else {
      assert s[0] == t[0];
      assert s[1..] == t[1..] + "\"" + rest;
      ReadTextOf(t[1..], rest);
      assert [t[0]] + t[1..] == t;
    }
  }

  function ReadBool(s: string): (r: Option<(bool, string)>)
    ensures r.Some? ==> |r.value.1| < |s|
  {
    if "true" <= s then Some((true, s[4..]))
    else if "false" <= s then Some((false, s[5..]))
    else None
  }

  lemma ReadBoolOf(b: bool, rest: string)
    ensures ReadBool(BoolText(b) + rest) == Some((b, rest))
  {
    var s := BoolText(b) + rest;
    if b {
      assert s[..4] == "true";
      assert s[4..] == rest;
    } else {
      assert s[..5] == "false";
      assert s[0] == 'f';
      assert s[5..] == rest;
    }
  }

  /** Reads one case record. */
  function DecodeCase(s: string): (r: Option<(CaseRecord, string)>)
    ensures r.Some? ==> |r.value.1| < |s|
  {
    var s1 :- Expect("{\"name\":\"", s);
    var name :- ReadText(s1);
    var s2 :- Expect(",\"status\":", name.1);
    var status :- ReadBool(s2);
    var s3 :- Expect(",\"ignore\":", status.1);
    var ignore :- ReadBool(s3);
    var s4 :- Expect(",\"duration\":", ignore.1);
    var duration :- ReadNat(s4);
    if status.0 then
      var s5 :- Expect("}", duration.1);
      Some((CaseRecord(name.0, true, ignore.0, duration.0, ""), s5))
    else
      var s5 :- Expect(",\"message\":\"", duration.1);
      var message :- ReadText(s5);
      var s6 :- Expect("}", message.1);
      Some((CaseRecord(name.0, false, ignore.0, duration.0, message.0), s6))
  }

  /** The text that follows the duration of a case record. */
  function CaseTail(r: CaseRecord): string {
    (if r.status then "" else ",\"message\":\"" + r.message + "\"") + "}"
  }

  lemma CaseJsonParts(r: CaseRecord, rest: string)
    ensures CaseJson(r) + rest
         == "{\"name\":\"" + (r.name + "\"" + (",\"status\":" + (BoolText(r.status)
            + (",\"ignore\":" + (BoolText(r.ignore) + (",\"duration\":"
            + (NatToString(r.duration) + (CaseTail(r) + rest))))))))
  {
    var name, st, ig, du := r.name, BoolText(r.status), BoolText(r.ignore), NatToString(r.duration);
    var tail := CaseTail(r);
    var q := "\"";
    var status := ",\"status\":";
    assert "\",\"status\":" == q + status;
    assert CaseJson(r) == "{\"name\":\"" + name + (q + status) + st + ",\"ignore\":" + ig + ",\"duration\":" + du + tail;
    RightNestCaseFields("{\"name\":\"", name, q + status, st, ",\"ignore\":", ig, ",\"duration\":", du, tail + rest);
    assert CaseJson(r) + rest == "{\"name\":\"" + name + (q + status) + st + ",\"ignore\":" + ig + ",\"duration\":" + du + (tail + rest);
    assert name + (q + status + (st + (",\"ignore\":" + (ig + (",\"duration\":" + (du + (tail + rest)))))))
        == name + q + (status + (st + (",\"ignore\":" + (ig + (",\"duration\":" + (du + (tail + rest)))))));
  }

  lemma DecodeCaseTail(r: CaseRecord, rest: string)
    requires WellFormedRecord(r)
    ensures r.status ==> Expect("}", CaseTail(r) + rest) == Some(rest)
    ensures !r.status ==>
      && Expect(",\"message\":\"", CaseTail(r) + rest) == Some(r.message + "\"" + ("}" + rest))
      && ReadText(r.message + "\"" + ("}" + rest)) == Some((r.message, "}" + rest))
      && Expect("}", "}" + rest) == Some(rest)
  {
    ExpectLiteral("}", rest);
    if !r.status {
      assert CaseTail(r) + rest == ",\"message\":\"" + (r.message + "\"" + ("}" + rest));
      ExpectLiteral(",\"message\":\"", r.message + "\"" + ("}" + rest));
      ReadTextOf(r.message, "}" + rest);
    }
  }

  /** Reading a written case record gives the record back and stops right
      after it. */
  lemma DecodeCaseRoundTrip(r: CaseRecord, rest: string)
    requires WellFormedRecord(r)
    ensures DecodeCase(CaseJson(r) + rest) == Some((r, rest))
  {
    var tail := CaseTail(r) + rest;
    var s4 := NatToString(r.duration) + tail;
    var s3 := BoolText(r.ignore) + (",\"duration\":" + s4);
    var s2 := BoolText(r.status) + (",\"ignore\":" + s3);
    var s1 := r.name + "\"" + (",\"status\":" + s2);
    CaseJsonParts(r, rest);
    ExpectLiteral("{\"name\":\"", s1);
    ReadTextOf(r.name, ",\"status\":" + s2);
    ExpectLiteral(",\"status\":", s2);
    ReadBoolOf(r.status, ",\"ignore\":" + s3);
    ExpectLiteral(",\"ignore\":", s3);
    ReadBoolOf(r.ignore, ",\"duration\":" + s4);
    ExpectLiteral(",\"duration\":", s4);
    assert tail[0] == ',' || tail[0] == '}';
    ReadNatOfNatToString(r.duration, tail);
    DecodeCaseTail(r, rest);
  }

  /** The counters of a totals record. */
  datatype Totals = Totals(count: nat, succeeds: nat, failures: nat, ignores: nat, duration: nat)

  function TotalsOf(s: SuiteSummary): Totals {
    Totals(s.count, s.succeeds, s.failures, s.ignores, s.totalDuration)
  }

  /** A key followed by a number. */
  function ReadField(key: string, s: string): (r: Option<(nat, string)>)
    ensures r.Some? ==> |r.value.1| < |s|
  {
    var t :- Expect(key, s);
    ReadNat(t)
  }

  lemma ReadFieldOf(key: string, n: nat, rest: string)
    requires rest == [] || !IsDigit(rest[0])
    ensures ReadField(key, key + (NatToString(n) + rest)) == Some((n, rest))
  {
    ExpectLiteral(key, NatToString(n) + rest);
    ReadNatOfNatToString(n, rest);
  }

  /** Reads one totals record. */
  function DecodeTotals(s: string): (r: Option<(Totals, string)>)
    ensures r.Some? ==> |r.value.1| < |s|
  {
    var count :- ReadField("{\"count\":", s);
    var succeeds :- ReadField(",\"success\":", count.1);
    var failures :- ReadField(",\"fail\":", succeeds.1);
    var ignores :- ReadField(",\"ignore\":", failures.1);
    var duration :- ReadField(",\"total_duration\":", ignores.1);
    var s6 :- Expect("}", duration.1);
    Some((Totals(count.0, succeeds.0, failures.0, ignores.0, duration.0), s6))
  }

  lemma TotalsJsonParts(s: SuiteSummary, rest: string)
    ensures TotalsJson(s) + rest
         == "{\"count\":" + (NatToString(s.count) + (",\"success\":" + (NatToString(s.succeeds)
            + (",\"fail\":" + (NatToString(s.failures) + (",\"ignore\":" + (NatToString(s.ignores)
            + (",\"total_duration\":" + (NatToString(s.totalDuration) + ("}" + rest))))))))))
  {
    RightNestTotalsFields("{\"count\":", NatToString(s.count), ",\"success\":", NatToString(s.succeeds),
              ",\"fail\":", NatToString(s.failures), ",\"ignore\":", NatToString(s.ignores),
              ",\"total_duration\":", NatToString(s.totalDuration), "}", rest);
  }

  lemma DecodeTotalsRoundTrip(s: SuiteSummary, rest: string)
    ensures DecodeTotals(TotalsJson(s) + rest) == Some((TotalsOf(s), rest))
  {
    var n1, n2, n3, n4, n5 := NatToString(s.count), NatToString(s.succeeds), NatToString(s.failures),
                              NatToString(s.ignores), NatToString(s.totalDuration);
    var t5 := ",\"total_duration\":" + (n5 + ("}" + rest));
    var t4 := ",\"ignore\":" + (n4 + t5);
    var t3 := ",\"fail\":" + (n3 + t4);
    var t2 := ",\"success\":" + (n2 + t3);
    TotalsJsonParts(s, rest);
    assert TotalsJson(s) + rest == "{\"count\":" + (n1 + t2);
    ReadFieldOf("{\"count\":", s.count, t2);
    ReadFieldOf(",\"success\":", s.succeeds, t3);
    ReadFieldOf(",\"fail\":", s.failures, t4);
    ReadFieldOf(",\"ignore\":", s.ignores, t5);
    ReadFieldOf(",\"total_duration\":", s.totalDuration, "}" + rest);
    ExpectLiteral("}", rest);
  }

  /** Every element followed by a comma. */
  function CommaTerminated(parts: seq<string>): string
    decreases |parts|
  {
    if |parts| == 0 then "" else parts[0] + "," + CommaTerminated(parts[1..])
  }

  /** The case records of a non-empty suite, joined and followed by the
      comma `main` writes before the totals, are each followed by a comma. */
  lemma {:induction false} JoinThenComma(parts: seq<string>)
    ensures Join(parts) + (if |parts| > 0 then "," else "") == CommaTerminated(parts)
    decreases |parts|
  {
    if |parts| > 1 {
      JoinThenComma(parts[1..]);
    }
  }

  /** Reads case records as long as one starts here; each is followed by a
      comma. */
  function DecodeCases(s: string): (r: Option<(seq<CaseRecord>, string)>)
    ensures r.Some? ==> |r.value.1| <= |s|
    decreases |s|
  {
    if "{\"name\":\"" <= s then
      var c :- DecodeCase(s);
      var s1 :- Expect(",", c.1);
      var more :- DecodeCases(s1);
      Some(([c.0] + more.0, more.1))
    else
      Some(([], s))
  }

  lemma {:induction false} DecodeCasesRoundTrip(rs: seq<CaseRecord>, rest: string)
    requires forall i :: 0 <= i < |rs| ==> WellFormedRecord(rs[i])
    requires !("{\"name\":\"" <= rest)
    ensures DecodeCases(CommaTerminated(CaseJsons(rs)) + rest) == Some((rs, rest))
    decreases |rs|
  {
    if rs != [] {
      var tail := rs[1..];
      CaseJsonsCons(rs);
      CommaTerminatedConsThen(CaseJson(rs[0]), CaseJsons(tail), rest);
      DecodeCasesRoundTrip(tail, rest);
      DecodeCasesCons(rs[0], CommaTerminated(CaseJsons(tail)) + rest, tail, rest);
      HeadTail(rs);
    } else {
      assert CommaTerminated(CaseJsons(rs)) + rest == rest;
    }
  }

  lemma CaseJsonsCons(rs: seq<CaseRecord>)
    requires |rs| > 0
    ensures CaseJsons(rs) == [CaseJson(rs[0])] + CaseJsons(rs[1..])
  {
  }

  lemma CommaTerminatedConsThen(p: string, ps: seq<string>, rest: string)
    ensures CommaTerminated([p] + ps) + rest == p + ("," + (CommaTerminated(ps) + rest))
  {
    var qs := [p] + ps;
    assert qs[0] == p && qs[1..] == ps;
    Assoc4(p, ",", CommaTerminated(ps), rest);
  }

  /** One case record, its comma, then whatever the rest decodes to. */
  lemma DecodeCasesCons(r: CaseRecord, more: string, tail: seq<CaseRecord>, rest: string)
    requires WellFormedRecord(r)
    requires DecodeCases(more) == Some((tail, rest))
    ensures DecodeCases(CaseJson(r) + ("," + more)) == Some(([r] + tail, rest))
  {
    var after := r.name + "\"" + (",\"status\":" + (BoolText(r.status)
          + (",\"ignore\":" + (BoolText(r.ignore) + (",\"duration\":"
          + (NatToString(r.duration) + (CaseTail(r) + ("," + more))))))));
    CaseJsonParts(r, "," + more);
    PrefixOfConcat("{\"name\":\"", after);
    DecodeCaseRoundTrip(r, "," + more);
    ExpectLiteral(",", more);
  }

  /** Reads one suite entry. */
  function DecodeSuite(s: string): (r: Option<(SuiteSummary, string)>)
    ensures r.Some? ==> |r.value.1| < |s|
  {
    var s1 :- Expect("\"", s);
    var name :- ReadText(s1);
    var s2 :- Expect(":[", name.1);
    var cases :- DecodeCases(s2);
    var totals :- DecodeTotals(cases.1);
    var s3 :- Expect("]", totals.1);
    var t := totals.0;
    Some((SuiteSummary(name.0, cases.0, t.count, t.succeeds, t.failures, t.ignores, t.duration), s3))
  }

  lemma SuiteJsonParts(s: SuiteSummary, rest: string)
    requires s.count == |s.records|
    ensures SuiteJson(s) + rest
         == "\"" + (s.name + "\"" + (":[" + (CommaTerminated(CaseJsons(s.records)) + (TotalsJson(s) + ("]" + rest)))))
  {
    var js := CaseJsons(s.records);
    var comma := if s.count > 0 then "," else "";
    var a, n, o, J, T := "\"", s.name, "\":[", Join(js), TotalsJson(s);
    var x := T + ("]" + rest);
    assert SuiteJson(s) == a + n + o + J + comma + T + "]";
    RightNestSuiteEntry(a, n, o, J, comma, T, rest);
    assert SuiteJson(s) + rest == a + (n + (o + (J + (comma + x))));
    JoinThenComma(js);
    assert J + comma == CommaTerminated(js);
    Assoc3(J, comma, x);
    var y := CommaTerminated(js) + x;
    assert SuiteJson(s) + rest == a + (n + (o + y));
    assert o == a + ":[";
    Assoc3(a, ":[", y);
    Assoc3(n, a, ":[" + y);
  }

  lemma DecodeSuiteRoundTrip(s: SuiteSummary, rest: string)
    requires WellFormedSuite(s)
    ensures DecodeSuite(SuiteJson(s) + rest) == Some((s, rest))
  {
    var js := CaseJsons(s.records);
    var t := TotalsJson(s) + ("]" + rest);
    var s2 := CommaTerminated(js) + t;
    SuiteJsonParts(s, rest);
    ExpectLiteral("\"", s.name + "\"" + (":[" + s2));
    ReadTextOf(s.name, ":[" + s2);
    ExpectLiteral(":[", s2);
    TotalsAreNoCase(s, "]" + rest);
    DecodeCasesRoundTrip(s.records, t);
    DecodeTotalsRoundTrip(s, "]" + rest);
    ExpectLiteral("]", rest);
  }

  /** The totals record does not start like a case record. */
  lemma TotalsAreNoCase(s: SuiteSummary, rest: string)
    ensures !("{\"name\":\"" <= TotalsJson(s) + rest)
  {
    var t := TotalsJson(s) + rest;
    TotalsJsonParts(s, rest);
    assert t[..9] == "{\"count\":";
    assert t[2] == 'c';
    assert "{\"name\":\""[2] == 'n';
  }

  /** Reads suite entries separated by commas. */
  function DecodeSuiteList(s: string): (r: Option<(seq<SuiteSummary>, string)>)
    ensures r.Some? ==> |r.value.1| < |s|
    decreases |s|
  {
    var e :- DecodeSuite(s);
    if "," <= e.1 then
      var more :- DecodeSuiteList(e.1[1..]);
      Some(([e.0] + more.0, more.1))
    else
      Some(([e.0], e.1))
  }

  lemma DecodeSuiteListSingle(x: SuiteSummary, rest: string)
    requires WellFormedSuite(x)
    requires !("," <= rest)
    ensures DecodeSuiteList(SuiteJson(x) + rest) == Some(([x], rest))
  {
    DecodeSuiteRoundTrip(x, rest);
  }

  lemma DecodeSuiteListCons(x: SuiteSummary, more: string, tail: seq<SuiteSummary>, rest: string)
    requires WellFormedSuite(x)
    requires DecodeSuiteList(more) == Some((tail, rest))
    ensures DecodeSuiteList(SuiteJson(x) + ("," + more)) == Some(([x] + tail, rest))
  {
    DecodeSuiteRoundTrip(x, "," + more);
    assert ("," + more)[1..] == more;
    PrefixOfConcat(",", more);
  }

  lemma {:induction false} DecodeSuiteListRoundTrip(ss: seq<SuiteSummary>, rest: string)
    requires |ss| > 0
    requires forall i :: 0 <= i < |ss| ==> WellFormedSuite(ss[i])
    requires !("," <= rest)
    ensures DecodeSuiteList(Join(SuiteJsons(ss)) + rest) == Some((ss, rest))
    decreases |ss|
  {
    var tail := ss[1..];
    SuiteJsonsCons(ss);
    if tail == [] {
      assert ss == [ss[0]];
      DecodeSuiteListSingle(ss[0], rest);
    } else {
      DecodeSuiteListRoundTrip(tail, rest);
      JoinConsThen(SuiteJson(ss[0]), SuiteJsons(tail), rest);
      DecodeSuiteListCons(ss[0], Join(SuiteJsons(tail)) + rest, tail, rest);
      HeadTail(ss);
    }
  }

  lemma SuiteJsonsCons(ss: seq<SuiteSummary>)
    requires |ss| > 0
    ensures SuiteJsons(ss) == [SuiteJson(ss[0])] + SuiteJsons(ss[1..])
  {
  }

  /** A join with a first element, followed by more text. */
  lemma JoinConsThen(p: string, ps: seq<string>, rest: string)
    ensures ps == [] ==> Join([p] + ps) + rest == p + rest
    ensures ps != [] ==> Join([p] + ps) + rest == p + ("," + (Join(ps) + rest))
  {
    var qs := [p] + ps;
    assert qs[0] == p && qs[1..] == ps;
    if ps != [] {
      Assoc4(p, ",", Join(ps), rest);
    }
  }

  /** Reads a whole document. */
  function DecodeDocument(s: string): Option<seq<SuiteSummary>> {
    var s1 :- Expect("{", s);
    if s1 == "}" then Some([])
    else
      var l :- DecodeSuiteList(s1);
      if l.1 == "}" then Some(l.0) else None
  }

  /** The document determines the summaries it was written from, as long as
      no suite name, case name or message contains a `"`. */
  lemma DocumentRoundTrip(ss: seq<SuiteSummary>)
    requires forall i :: 0 <= i < |ss| ==> WellFormedSuite(ss[i])
    ensures DecodeDocument(DocumentJson(ss)) == Some(ss)
  {
    var js := SuiteJsons(ss);
    var s := DocumentJson(ss);
    var body := Join(js) + "}";
    Assoc3("{", Join(js), "}");
    assert s == "{" + body;
    ExpectLiteral("{", body);
    if ss == [] {
      assert body == "}";
      assert Expect("{", s) == Some("}");
    } else {
      forall i | 0 <= i < |js|
        ensures |js[i]| > 0
      {
        assert js[i] == SuiteJson(ss[i]);
      }
      JoinBounds(js);
      assert |body| > 1;
      assert "}"[0] != ',';
      DecodeSuiteListRoundTrip(ss, "}");
      assert DecodeSuiteList(body) == Some((ss, "}"));
      assert DecodeDocument(s) == Some(ss);
    }
  }

  /** Consequently two runs whose documents are equal had equal summaries. */
  lemma DocumentInjective(ss: seq<SuiteSummary>, ss': seq<SuiteSummary>)
    requires forall i :: 0 <= i < |ss| ==> WellFormedSuite(ss[i])
    requires forall i :: 0 <= i < |ss'| ==> WellFormedSuite(ss'[i])
    requires DocumentJson(ss) == DocumentJson(ss')
    ensures ss == ss'
  {
    DocumentRoundTrip(ss);
    DocumentRoundTrip(ss');
  }
}
