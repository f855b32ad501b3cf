/** The assertion helpers a case body calls. Each one either returns or
    raises; raising is represented by the `Outcome` it produces. */
module Assertions {
  import opened Registry

  /** `AssertEqual<T>`: raises `PopQuiz::Exception(msg)` exactly when `e != a`
      holds; the message is `msg` unchanged. The model compares the Dafny
      values it is given, where C++ uses `T`'s own `operator!=`; for two
      string literals that operator compares the arrays' addresses, the
      difference README's "Assertions.AssertEqual:" line under "## Left out"
      admits. */
  function AssertEqual<T(==)>(e: T, a: T, msg: string): (r: Outcome)
    ensures r.Returns? <==> e == a
    ensures !r.Returns? ==> r == RaisesQuiz(msg)
  {
    if e != a then RaisesQuiz(msg) else Returns
  }

  /** `AssertEqual<std::string>`: the same verdict, with both strings
      appended to the message. */
  function AssertEqualString(e: string, a: string, msg: string): (r: Outcome)
    ensures r.Returns? <==> e == a
    ensures !r.Returns? ==> r.RaisesQuiz?
  {
    if e != a then RaisesQuiz(msg + "(" + e + " is not " + a + ")") else Returns
  }

  /** The string form agrees with the generic form on the verdict; when it
      raises, its message is the generic message, then `(` with no space
      before it, the expected text, ` is not `, the actual text and `)`. */
  lemma StringMessageExtendsGeneric(e: string, a: string, msg: string)
    ensures AssertEqualString(e, a, msg).Returns? == AssertEqual(e, a, msg).Returns?
    ensures e != a ==>
      var m := AssertEqualString(e, a, msg).msg;
      && AssertEqual(e, a, msg).msg <= m
      && |m| == |msg| + |e| + |a| + 10
      && m[|msg|] == '('
      && m[|msg| + 1..|msg| + 1 + |e|] == e
      && m[|msg| + 1 + |e|..|msg| + 9 + |e|] == " is not "
      && m[|msg| + 9 + |e|..|m| - 1] == a
      && m[|m| - 1] == ')'
  {
  }

  /** The `E` of `AssertNoThrow<E>`: the type its handler catches.
      `catch (const E&)` is abstracted to equality of the raised kind. */
  datatype Handler = CatchQuiz | CatchKind(kind: string)

  predicate Catches(h: Handler, o: Outcome) {
    match h
    case CatchQuiz => o.RaisesQuiz?
    case CatchKind(k) => o.RaisesOther? && o.kind == k
  }

  /** `AssertNoThrow<E>(test, msg)`: runs `test`; returns when it returns or
      raises an `E`, and re-raises anything else unchanged. `msg` is unused. */
  function AssertNoThrow(test: Outcome, h: Handler, msg: string): (r: Outcome)
    ensures r.Returns? <==> test.Returns? || Catches(h, test)
    ensures !r.Returns? ==> r == test
    ensures !Catches(h, r)
  {
    if Catches(h, test) then Returns else test
  }

  /** Applying the same `AssertNoThrow` twice changes nothing more, and the
      message argument never influences the result. */
  lemma AssertNoThrowIdempotent(test: Outcome, h: Handler, msg: string, msg': string)
    ensures AssertNoThrow(AssertNoThrow(test, h, msg), h, msg') == AssertNoThrow(test, h, msg)
    ensures AssertNoThrow(test, h, msg) == AssertNoThrow(test, h, msg')
  {
  }
}
