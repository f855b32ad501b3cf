/** Regrouping facts about string concatenation, stated over arbitrary
    strings so that the solver never has to look inside the pieces. */
module Concat {

  lemma HeadTail<T>(xs: seq<T>)
    requires |xs| > 0
    ensures [xs[0]] + xs[1..] == xs
  {
  }

  lemma PrefixOfConcat(a: string, b: string)
    ensures a <= a + b
  {
    assert (a + b)[..|a|] == a;
  }

  /** Regrouping a left-nested concatenation to the right. */
  lemma Assoc3(a: string, b: string, c: string)
    ensures a + (b + c) == (a + b) + c
  {
  }

  lemma Assoc4(a: string, b: string, c: string, d: string)
    ensures a + b + c + d == a + (b + (c + d))
  {
  }

  /** The eight leading pieces of a case record, nested to the right. */
  lemma RightNestCaseFields(a: string, b: string, c: string, d: string, e: string, f: string, g: string, h: string, rest: string)
    ensures a + b + c + d + e + f + g + h + rest == a + (b + (c + (d + (e + (f + (g + (h + rest)))))))
  {
  }

  /** A suite entry's six pieces and its closing `]`, nested to the right. */
  lemma RightNestSuiteEntry(a: string, b: string, c: string, d: string, e: string, f: string, rest: string)
    ensures a + b + c + d + e + f + "]" + rest == a + (b + (c + (d + (e + (f + ("]" + rest))))))
  {
  }

  /** The eleven pieces of a totals record, nested to the right. */
  lemma RightNestTotalsFields(a: string, b: string, c: string, d: string, e: string, f: string,
                              g: string, h: string, i: string, j: string, k: string, rest: string)
    ensures a + b + c + d + e + f + g + h + i + j + k + rest
         == a + (b + (c + (d + (e + (f + (g + (h + (i + (j + (k + rest))))))))))
  {
  }
}
