/** What several of the modules use. */
module Wrappers {

  datatype Option<+T> = None | Some(value: T)
}

module Strings {

  function LowerChar(c: char): char {
    if 'A' <= c <= 'Z' then ((c as int) + 32) as char else c
  }

  function Lower(s: string): (r: string)
    ensures |r| == |s| && forall i :: 0 <= i < |s| ==> r[i] == LowerChar(s[i])
  {
    seq(|s|, i requires 0 <= i < |s| => LowerChar(s[i]))
  }
}

module Division {

  lemma Times(a: int, b: int, d: int)
    requires a <= b && d > 0
    ensures a * d <= b * d
  {
  }

  /** A quotient and a remainder are the only ones. */
  lemma Divided(n: int, d: int, q: int, r: int)
    requires d > 0 && 0 <= r < d && n == q * d + r
    ensures n / d == q && n % d == r
  {
    var e := n / d;
    assert n == e * d + n % d;
    if e > q { Times(q + 1, e, d); }
    if e < q { Times(e + 1, q, d); }
  }
}
