/** The order in which `std::map<std::string, Suite>` visits its keys: the
    byte-wise lexicographic order of `std::string`, and the sorted enumeration
    of a finite set of suite names that it induces. Each `char` of a key
    stands for one byte of the `std::string`, its value being the byte read
    as `unsigned char`, so comparing `char`s is the unsigned-byte comparison
    `std::char_traits<char>::compare` makes. */
module Order {

  /** `a <= b` for `std::string`: compare character by character; a proper
      prefix comes first. */
  predicate LexLessEq(a: string, b: string)
    decreases |a|
  {
    |a| == 0 || (|b| > 0 && (a[0] < b[0] || (a[0] == b[0] && LexLessEq(a[1..], b[1..]))))
  }

  predicate LexLess(a: string, b: string) {
    LexLessEq(a, b) && a != b
  }

  /** Reference definition of the same order, without recursion: either `a`
      is a prefix of `b`, or at the first position where they differ `a` has
      the smaller character. */
  predicate PrefixOrFirstDifferenceSmaller(a: string, b: string) {
    a <= b || exists k :: 0 <= k < |a| && k < |b| && a[..k] == b[..k] && a[k] < b[k]
  }

  lemma {:induction false} LexLessEqIsFirstDifference(a: string, b: string)
    ensures LexLessEq(a, b) <==> PrefixOrFirstDifferenceSmaller(a, b)
  {
    if LexLessEq(a, b) {
      LexLessEqGivesFirstDifference(a, b);
    }
    if PrefixOrFirstDifferenceSmaller(a, b) {
      if a <= b {
        PrefixIsLexLessEq(a, b);
      } else {
        var k :| 0 <= k < |a| && k < |b| && a[..k] == b[..k] && a[k] < b[k];
        FirstDifferenceIsLexLessEq(a, b, k);
      }
    }
  }

  lemma {:induction false} LexLessEqGivesFirstDifference(a: string, b: string)
    requires LexLessEq(a, b)
    ensures PrefixOrFirstDifferenceSmaller(a, b)
    decreases |a|
  {
    if |a| == 0 {
    } else if a[0] < b[0] {
      assert a[..0] == b[..0];
    } else {
      var a', b' := a[1..], b[1..];
      LexLessEqGivesFirstDifference(a', b');
      assert a == [a[0]] + a' && b == [b[0]] + b';
      if a' <= b' {
        assert a <= b;
      } else {
        var k :| 0 <= k < |a'| && k < |b'| && a'[..k] == b'[..k] && a'[k] < b'[k];
        assert a[..k + 1] == [a[0]] + a'[..k];
        assert b[..k + 1] == [b[0]] + b'[..k];
      }
    }
  }

  lemma {:induction false} PrefixIsLexLessEq(a: string, b: string)
    requires a <= b
    ensures LexLessEq(a, b)
    decreases |a|
  {
    if |a| > 0 {
      PrefixIsLexLessEq(a[1..], b[1..]);
    }
  }

  lemma {:induction false} FirstDifferenceIsLexLessEq(a: string, b: string, k: nat)
    requires k < |a| && k < |b| && a[..k] == b[..k] && a[k] < b[k]
    ensures LexLessEq(a, b)
    decreases k
  {
    if k > 0 {
      assert a[0] == a[..k][0] == b[..k][0] == b[0];
      assert a[1..][..k - 1] == a[..k][1..];
      assert b[1..][..k - 1] == b[..k][1..];
      FirstDifferenceIsLexLessEq(a[1..], b[1..], k - 1);
    }
  }

  lemma {:induction false} LexReflexive(a: string)
    ensures LexLessEq(a, a)
    decreases |a|
  {
    if |a| > 0 {
      LexReflexive(a[1..]);
    }
  }

  lemma {:induction false} LexAntisymmetric(a: string, b: string)
    requires LexLessEq(a, b) && LexLessEq(b, a)
    ensures a == b
    decreases |a|
  {
    if |a| > 0 {
      LexAntisymmetric(a[1..], b[1..]);
      assert a == [a[0]] + a[1..] && b == [b[0]] + b[1..];
    }
  }

  lemma {:induction false} LexTransitive(a: string, b: string, c: string)
    requires LexLessEq(a, b) && LexLessEq(b, c)
    ensures LexLessEq(a, c)
    decreases |a|
  {
    if |a| > 0 && a[0] == b[0] && b[0] == c[0] {
      LexTransitive(a[1..], b[1..], c[1..]);
    }
  }

  lemma {:induction false} LexTotal(a: string, b: string)
    ensures LexLessEq(a, b) || LexLessEq(b, a)
    decreases |a|
  {
    if |a| > 0 && |b| > 0 && a[0] == b[0] {
      LexTotal(a[1..], b[1..]);
    }
  }

  lemma LexAntisymmetricAll()
    ensures forall a, b :: LexLessEq(a, b) && LexLessEq(b, a) ==> a == b
  {
    forall a, b | LexLessEq(a, b) && LexLessEq(b, a)
      ensures a == b
    {
      LexAntisymmetric(a, b);
    }
  }

  predicate IsMinimum(k: string, keys: set<string>) {
    forall j :: j in keys ==> LexLessEq(k, j)
  }

  lemma {:induction false} MinimumExists(keys: set<string>)
    requires keys != {}
    ensures exists k :: k in keys && IsMinimum(k, keys)
    decreases keys
  {
    var x :| x in keys;
    var rest := keys - {x};
    if rest == {} {
      assert keys == {x};
      LexReflexive(x);
      assert x in keys && IsMinimum(x, keys);
    } else {
      MinimumExists(rest);
      var m :| m in rest && IsMinimum(m, rest);
      LexTotal(x, m);
      if LexLessEq(x, m) {
        forall j | j in keys
          ensures LexLessEq(x, j)
        {
          if j == x {
            LexReflexive(x);
          } else {
            LexTransitive(x, m, j);
          }
        }
        assert x in keys && IsMinimum(x, keys);
      } else {
        assert m in keys && IsMinimum(m, keys);
      }
    }
  }

  /** The smallest name in a non-empty set of suite names. */
  function MinKey(keys: set<string>): (k: string)
    requires keys != {}
    ensures k in keys && IsMinimum(k, keys)
  {
    MinimumExists(keys);
    LexAntisymmetricAll();
    var k :| k in keys && IsMinimum(k, keys); k
  }

  predicate StrictlyIncreasing(r: seq<string>) {
    forall i, j :: 0 <= i < j < |r| ==> LexLess(r[i], r[j])
  }

  /** The keys of a `std::map<std::string, _>` in iteration order. */
  function SortedKeys(keys: set<string>): (r: seq<string>)
    ensures |r| == |keys|
    ensures forall k :: k in keys <==> k in r
    ensures StrictlyIncreasing(r)
    decreases |keys|
  {
    if keys == {} then []
    else
      var k := MinKey(keys);
      [k] + SortedKeys(keys - {k})
  }

  /** The sorted enumeration is the only one: any strictly increasing
      sequence listing exactly the keys is `SortedKeys`. */
  lemma {:induction false} SortedKeysUnique(keys: set<string>, r: seq<string>)
    requires StrictlyIncreasing(r)
    requires forall k :: k in keys <==> k in r
    ensures r == SortedKeys(keys)
    decreases |r|
  {
    if r == [] {
      assert keys == {};
    } else {
      assert r[0] in keys;
      var m := MinKey(keys);
      assert r[0] == m by {
        var i :| 0 <= i < |r| && r[i] == m;
        if i > 0 {
          assert LexLess(r[0], m);
          assert LexLessEq(m, r[0]);
          LexAntisymmetric(m, r[0]);
        }
      }
      var rest := r[1..];
      forall k
        ensures k in keys - {m} <==> k in rest
      {
        if k in rest {
          var j :| 0 <= j < |rest| && rest[j] == k;
          assert LexLess(r[0], r[j + 1]);
        }
        if k in keys - {m} {
          var j :| 0 <= j < |r| && r[j] == k;
          assert j != 0;
          assert rest[j - 1] == k;
        }
      }
      SortedKeysUnique(keys - {m}, rest);
      assert r == [m] + rest;
    }
  }
}
