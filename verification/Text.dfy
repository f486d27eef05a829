/** Facts about the string keys the program builds by joining parts with a separator. */
module Text {

  const NUL: char := '\0'

  predicate Free(s: string, c: char) {
    c !in s
  }

  /** A key whose head has no separator splits at the first separator only. */
  lemma {:induction false} HeadSplits(a: string, b: string, x: string, y: string, c: char)
    requires Free(a, c) && Free(b, c)
    requires a + [c] + x == b + [c] + y
    ensures a == b && x == y
  {
    var l, r := a + [c] + x, b + [c] + y;
    assert l[|a|] == c && r[|b|] == c;
    assert a == l[..|a|] && b == r[..|b|];
    assert x == l[|a| + 1..] && y == r[|b| + 1..];
  }

  /** A key whose tail has no separator splits at the last separator only. */
  lemma {:induction false} TailSplits(a: string, b: string, x: string, y: string, c: char)
    requires Free(x, c) && Free(y, c)
    requires a + [c] + x == b + [c] + y
    ensures a == b && x == y
  {
    var l, r := a + [c] + x, b + [c] + y;
    assert l[|a|] == c && r[|b|] == c;
    assert a == l[..|a|] && b == r[..|b|];
    assert x == l[|a| + 1..] && y == r[|b| + 1..];
  }
}
