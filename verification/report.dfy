/** The JSON report of a whole run read back: when no suite name, case name
    or failure message contains a double quote, the unescaped text `main`
    builds still determines every summary of the run. */
module Report {
  import opened Wrappers
  import opened Registry
  import opened Summary
  import opened Engine
  import opened Json
  import opened JsonDecode

  /** Texts the writer copies without escaping are free of `"`. */
  predicate QuoteFreeSuite(name: string, cs: seq<Case>) {
    && NoQuote(name)
    && forall i :: 0 <= i < |cs| ==> NoQuote(cs[i].name) && (FailsQuiz(cs[i]) ==> NoQuote(cs[i].body.effect.msg))
  }

  /** The summary of a suite with quote-free texts is one the decoder can
      read back. */
  lemma SummaryWellFormed(name: string, cs: seq<Case>)
    requires QuoteFreeSuite(name, cs)
    ensures WellFormedSuite(Summarize(name, cs))
  {
    var rs := Records(cs);
    forall i | 0 <= i < |rs|
      ensures WellFormedRecord(rs[i])
    {
      if FailsQuiz(cs[i]) {
        var m := cs[i].body.effect.msg;
        assert UpToNul(m) <= m;
        assert forall j :: 0 <= j < |UpToNul(m)| ==> UpToNul(m)[j] == m[j];
      }
    }
  }

  /** The JSON text of a completed run decodes to exactly the run's
      summaries, in key order. */
  lemma RunReportDecodes(reg: Registry)
    requires Run(reg).Completed?
    requires forall k :: k in reg ==> QuoteFreeSuite(k, reg[k])
    ensures DecodeDocument(Run(reg).json) == Some(Run(reg).summaries)
  {
    var ss := Run(reg).summaries;
    SummariesInKeyOrder(reg);
    forall i | 0 <= i < |ss|
      ensures WellFormedSuite(ss[i])
    {
      SummaryWellFormed(ss[i].name, reg[ss[i].name]);
    }
    DocumentRoundTrip(ss);
  }
}
