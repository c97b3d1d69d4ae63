/**
 * Base64 (section 4 of RFC 4648): the general encoder and decoder, and the SMTP client's own encoder.
 * The decoder's 32-bit accumulator is never masked: its upper bits wrap away.
 */
module Base64 {

  import opened Division
  import opened Wrappers

  type Octet = x: int | 0 <= x < 256
  type Sextet = x: int | 0 <= x < 64

  const PAD: Octet := '=' as int

  // ─── The alphabet ──────────────────────────────────────────────────────────

  function Digit(v: Sextet): Octet {
    if v < 26 then 'A' as int + v
    else if v < 52 then 'a' as int + (v - 26)
    else if v < 62 then '0' as int + (v - 52)
    else if v == 62 then '+' as int
    else '/' as int
  }

  predicate Space(c: Octet) {
    c == ' ' as int || c == '\n' as int || c == '\r' as int || c == '\t' as int
  }

  /** The value a digit stands for: the only one, if any. */
  function Value(c: Octet): (v: Option<Sextet>)
    ensures v.Some? ==> Digit(v.value) == c
    ensures v == None ==> forall w: Sextet :: Digit(w) != c
  {
    if 'A' as int <= c <= 'Z' as int then Some(c - 'A' as int)
    else if 'a' as int <= c <= 'z' as int then Some(c - 'a' as int + 26)
    else if '0' as int <= c <= '9' as int then Some(c - '0' as int + 52)
    else if c == '+' as int then Some(62)
    else if c == '/' as int then Some(63)
    else None
  }

  lemma ValueOfDigit(v: Sextet)
    ensures Value(Digit(v)) == Some(v) && Digit(v) != PAD && !Space(Digit(v))
  {
  }

  /** The entry of c when so many upper-case letters, lower-case letters and figures have been entered. */
  function EntrySoFar(c: Octet, upper: int, lower: int, figures: int): int {
    if 'A' as int <= c < 'A' as int + upper then c - 'A' as int
    else if 'a' as int <= c < 'a' as int + lower then c - 'a' as int + 26
    else if '0' as int <= c < '0' as int + figures then c - '0' as int + 52
    else -1
  }

  /** The table a decoder looks digits up in: -1 where there is none. */
  ghost predicate IsDecodeTable(table: array<int>)
    reads table
  {
    table.Length == 256 && forall c: Octet :: table[c] == if Value(c).Some? then Value(c).value else -1
  }

  method BuildDecodeTable() returns (table: array<int>)
    ensures fresh(table) && IsDecodeTable(table)
  {
    table := new int[256](_ => -1);
    for i := 0 to 26
      invariant forall c: Octet :: table[c] == EntrySoFar(c, i, 0, 0)
    {
      table['A' as int + i] := i;
    }
    for i := 0 to 26
      invariant forall c: Octet :: table[c] == EntrySoFar(c, 26, i, 0)
    {
      table['a' as int + i] := i + 26;
    }
    for i := 0 to 10
      invariant forall c: Octet :: table[c] == EntrySoFar(c, 26, 26, i)
    {
      table['0' as int + i] := i + 52;
    }
    table['+' as int] := 62;
    table['/' as int] := 63;
  }

  // ─── Encoding ──────────────────────────────────────────────────────────────

  /** Three octets as the four sextets of their 24 bits. */
  function Quad(a: Octet, b: Octet, c: Octet): (q: seq<Sextet>)
    ensures |q| == 4
  {
    [a / 4, a % 4 * 16 + b / 16, b % 16 * 4 + c / 64, c % 64]
  }

  /** Section 4 of RFC 4648: groups of 24 bits, the last one padded. */
  function Encoded(x: seq<Octet>): seq<Octet>
    decreases |x|
  {
    if |x| == 0 then []
    else if |x| == 1 then
      var q := Quad(x[0], 0, 0);
      [Digit(q[0]), Digit(q[1]), PAD, PAD]
    else if |x| == 2 then
      var q := Quad(x[0], x[1], 0);
      [Digit(q[0]), Digit(q[1]), Digit(q[2]), PAD]
    else
      var q := Quad(x[0], x[1], x[2]);
      [Digit(q[0]), Digit(q[1]), Digit(q[2]), Digit(q[3])] + Encoded(x[3..])
  }

  /** The 24-bit word of three octets. */
  function Word(a: int, b: int, c: int): int {
    a * 65536 + b * 256 + c
  }

  // Shifting and masking the 24-bit word gives its sextets.

  lemma WordFirst(a: Octet, b: Octet, c: Octet)
    ensures Word(a, b, c) / 262144 % 64 == a / 4
  {
    Divided(Word(a, b, c), 262144, a / 4, a as int % 4 * 65536 + b as int * 256 + c as int);
    Divided(a / 4, 64, 0, a / 4);
  }

  lemma WordSecond(a: Octet, b: Octet, c: Octet)
    ensures Word(a, b, c) / 4096 % 64 == a as int % 4 * 16 + b as int / 16
  {
    Divided(Word(a, b, c), 4096, a as int * 16 + b as int / 16, b as int % 16 * 256 + c as int);
    Divided(a as int * 16 + b as int / 16, 64, a / 4, a as int % 4 * 16 + b as int / 16);
  }

  lemma WordThird(a: Octet, b: Octet, c: Octet)
    ensures Word(a, b, c) / 64 % 64 == b as int % 16 * 4 + c as int / 64 && Word(a, b, c) % 64 == c % 64
  {
    Divided(Word(a, b, c), 64, a as int * 1024 + b as int * 4 + c as int / 64, c % 64);
    Divided(a as int * 1024 + b as int * 4 + c as int / 64, 64, a as int * 16 + b as int / 16,
            b as int % 16 * 4 + c as int / 64);
  }

  lemma WordIsQuad(a: Octet, b: Octet, c: Octet)
    ensures var n := Word(a, b, c);
      Quad(a, b, c) == [n / 262144 % 64, n / 4096 % 64, n / 64 % 64, n % 64]
  {
    hide Word;
    WordFirst(a, b, c);
    WordSecond(a, b, c);
    WordThird(a, b, c);
  }

  lemma {:induction false} EncodedLength(x: seq<Octet>)
    ensures |Encoded(x)| == 4 * ((|x| + 2) / 3)
    decreases |x|
  {
    hide Quad, Digit;
    if |x| >= 3 {
      EncodedLength(x[3..]);
      ThreeMore(|x| - 3);
      assert |Encoded(x)| == 4 + |Encoded(x[3..])|;
    }
  }

  lemma ThreeMore(n: nat)
    ensures (n + 3 + 2) / 3 == (n + 2) / 3 + 1
  {
  }

  /** The four digits of one 24-bit word, as the loops compute them. */
  function Digits(n: int): seq<Octet> {
    [Digit(n / 262144 % 64), Digit(n / 4096 % 64), Digit(n / 64 % 64), Digit(n % 64)]
  }

  lemma NextGroup(x: seq<Octet>)
    requires |x| >= 3
    ensures Encoded(x) == Digits(Word(x[0], x[1], x[2])) + Encoded(x[3..])
  {
    WordIsQuad(x[0], x[1], x[2]);
    hide Quad, Word, Digit;
  }

  lemma LastGroup(x: seq<Octet>)
    requires 1 <= |x| <= 2
    ensures var d := Digits(Word(x[0], if |x| == 2 then x[1] else 0, 0));
      Encoded(x) == [d[0], d[1], if |x| == 2 then d[2] else PAD, PAD]
  {
    WordIsQuad(x[0], if |x| == 2 then x[1] else 0, 0);
  }

  method Encode(input: seq<Octet>) returns (out: seq<Octet>)
    ensures out == Encoded(input)
  {
    hide Encoded, Digits, Word;
    out := [];
    var i := 0;
    assert input[0..] == input;
    while i + 2 < |input|
      invariant i <= |input| && out + Encoded(input[i..]) == Encoded(input)
    {
      var n := Word(input[i], input[i + 1], input[i + 2]);
      NextGroup(input[i..]);
      assert input[i..][3..] == input[i + 3..];
      assert out + (Digits(n) + Encoded(input[i + 3..])) == (out + Digits(n)) + Encoded(input[i + 3..]);
      out := out + Digits(n);
      i := i + 3;
    }
    if i < |input| {
      var n := Word(input[i], if i + 1 < |input| then input[i + 1] else 0, 0);
      LastGroup(input[i..]);
      var d := Digits(n);
      DigitsFour(n);
      out := out + [d[0], d[1], if i + 1 < |input| then d[2] else PAD, PAD];
    } else {
      EncodedNothing(input[i..]);
    }
  }

  lemma DigitsFour(n: int)
    ensures |Digits(n)| == 4
  {
  }

  lemma EncodedNothing(x: seq<Octet>)
    requires x == []
    ensures Encoded(x) == []
  {
  }

  /** The SMTP client's encoder: one loop, the padding decided inside it. */
  method EncodeForSmtp(input: seq<Octet>) returns (out: seq<Octet>)
    ensures out == Encoded(input)
  {
    hide Encoded, Digits, Word;
    out := [];
    var i := 0;
    assert input[0..] == input;
    while i < |input|
      invariant if i <= |input| then out + Encoded(input[i..]) == Encoded(input) else out == Encoded(input)
      decreases |input| - i
    {
      var n := Word(input[i], if i + 1 < |input| then input[i + 1] else 0, if i + 2 < |input| then input[i + 2] else 0);
      var d := Digits(n);
      DigitsFour(n);
      var four: seq<Octet> := [d[0], d[1], if i + 1 < |input| then d[2] else PAD,
                               if i + 2 < |input| then d[3] else PAD];
      if i + 2 < |input| {
        NextGroup(input[i..]);
        assert input[i..][3..] == input[i + 3..] && four == d;
        assert out + (d + Encoded(input[i + 3..])) == (out + d) + Encoded(input[i + 3..]);
      } else {
        LastGroup(input[i..]);
      }
      out := out + four;
      i := i + 3;
    }
    if i == |input| { EncodedNothing(input[i..]); }
  }

  // ─── Decoding ──────────────────────────────────────────────────────────────

  /** The digits of a text up to its padding, spaces left out; None: something else is among them. */
  function Sextets(text: seq<Octet>): Option<seq<Sextet>>
    decreases |text|
  {
    if text == [] || text[0] == PAD then Some([])
    else if Space(text[0]) then Sextets(text[1..])
    else if Value(text[0]) == None then None
    else
      match Sextets(text[1..])
      case None => None
      case Some(rest) => Some([Value(text[0]).value] + rest)
  }

  // The octets of four sextets.

  function First(a: Sextet, b: Sextet): Octet {
    a as int * 4 + b as int / 16
  }

  function Second(b: Sextet, c: Sextet): Octet {
    b as int % 16 * 16 + c as int / 4
  }

  function Third(c: Sextet, d: Sextet): Octet {
    c as int % 4 * 64 + d as int
  }

  /** Section 4 of RFC 4648 read backwards: four sextets are three octets; of two or three, the full octets count. */
  function Octets(vs: seq<Sextet>): seq<Octet>
    decreases |vs|
  {
    if |vs| < 2 then []
    else if |vs| == 2 then [First(vs[0], vs[1])]
    else if |vs| == 3 then [First(vs[0], vs[1]), Second(vs[1], vs[2])]
    else [First(vs[0], vs[1]), Second(vs[1], vs[2]), Third(vs[2], vs[3])] + Octets(vs[4..])
  }

  /** What a text means: an error, or octets. */
  function Decoded(text: seq<Octet>): Option<seq<Octet>> {
    match Sextets(text) case None => None case Some(vs) => Some(Octets(vs))
  }

  lemma {:induction false} SextetsOfEncoded(x: seq<Octet>)
    ensures Sextets(Encoded(x)).Some? && Octets(Sextets(Encoded(x)).value) == x
    decreases |x|
  {
    if |x| >= 3 {
      var q := Quad(x[0], x[1], x[2]);
      QuadBack(x[0], x[1], x[2]);
      hide Quad, First, Second, Third, Digit;
      SextetsOfEncoded(x[3..]);
      FourDigits(q, Encoded(x[3..]));
      var rest := Sextets(Encoded(x[3..])).value;
      assert (q + rest)[4..] == rest;
      assert x == [x[0], x[1], x[2]] + x[3..];
    } else if |x| > 0 {
      ShortRoundTrip(x);
    }
  }

  /** The four sextets of three octets are those octets again. */
  lemma QuadBack(a: Octet, b: Octet, c: Octet)
    ensures var q := Quad(a, b, c); First(q[0], q[1]) == a && Second(q[1], q[2]) == b && Third(q[2], q[3]) == c
  {
  }

  lemma ShortRoundTrip(x: seq<Octet>)
    requires 1 <= |x| <= 2
    ensures Sextets(Encoded(x)).Some? && Octets(Sextets(Encoded(x)).value) == x
  {
    var b: Octet := if |x| == 2 then x[1] else 0;
    QuadBack(x[0], b, 0);
    hide Quad, Digit, Sextets, First, Second, Third;
    var q := Quad(x[0], b, 0);
    if |x| == 2 {
      assert Encoded(x) == [Digit(q[0]), Digit(q[1]), Digit(q[2]), PAD];
      ThreeDigits(q);
    } else {
      assert Encoded(x) == [Digit(q[0]), Digit(q[1]), PAD, PAD];
      TwoDigits(q);
    }
  }

  lemma OneDigit(v: Sextet, rest: seq<Octet>)
    ensures Sextets([Digit(v)] + rest) == match Sextets(rest) case None => None case Some(vs) => Some([v] + vs)
  {
    ValueOfDigit(v);
    assert ([Digit(v)] + rest)[1..] == rest;
  }

  lemma TwoDigits(q: seq<Sextet>)
    requires |q| == 4
    ensures Sextets([Digit(q[0]), Digit(q[1]), PAD, PAD]) == Some([q[0], q[1]])
  {
    assert Sextets([PAD, PAD]) == Some([]);
    OneDigit(q[1], [PAD, PAD]);
    OneDigit(q[0], [Digit(q[1]), PAD, PAD]);
    var none: seq<Sextet> := [];
    assert [q[0]] + ([q[1]] + none) == [q[0], q[1]];
    assert [Digit(q[1])] + [PAD, PAD] == [Digit(q[1]), PAD, PAD];
    assert [Digit(q[0])] + [Digit(q[1]), PAD, PAD] == [Digit(q[0]), Digit(q[1]), PAD, PAD];
  }

  lemma ThreeDigits(q: seq<Sextet>)
    requires |q| == 4
    ensures Sextets([Digit(q[0]), Digit(q[1]), Digit(q[2]), PAD]) == Some([q[0], q[1], q[2]])
  {
    assert Sextets([PAD]) == Some([]);
    OneDigit(q[2], [PAD]);
    OneDigit(q[1], [Digit(q[2]), PAD]);
    OneDigit(q[0], [Digit(q[1]), Digit(q[2]), PAD]);
    var none: seq<Sextet> := [];
    assert [q[0]] + ([q[1]] + ([q[2]] + none)) == [q[0], q[1], q[2]];
    assert [Digit(q[2])] + [PAD] == [Digit(q[2]), PAD];
    assert [Digit(q[1])] + [Digit(q[2]), PAD] == [Digit(q[1]), Digit(q[2]), PAD];
    assert [Digit(q[0])] + [Digit(q[1]), Digit(q[2]), PAD] == [Digit(q[0]), Digit(q[1]), Digit(q[2]), PAD];
  }

  lemma FourDigits(q: seq<Sextet>, rest: seq<Octet>)
    requires |q| == 4
    ensures Sextets([Digit(q[0]), Digit(q[1]), Digit(q[2]), Digit(q[3])] + rest) ==
      match Sextets(rest) case None => None case Some(vs) => Some(q + vs)
  {
    var text := [Digit(q[0]), Digit(q[1]), Digit(q[2]), Digit(q[3])] + rest;
    OneDigit(q[3], rest);
    OneDigit(q[2], text[3..]);
    OneDigit(q[1], text[2..]);
    OneDigit(q[0], text[1..]);
    assert text[3..] == [Digit(q[3])] + rest && text[2..] == [Digit(q[2])] + text[3..];
    assert text[1..] == [Digit(q[1])] + text[2..] && text == [Digit(q[0])] + text[1..];
    if Sextets(rest).Some? {
      var vs := Sextets(rest).value;
      assert [q[0]] + ([q[1]] + ([q[2]] + ([q[3]] + vs))) == q + vs;
    }
  }

  /** Every string of octets comes back. */
  lemma RoundTrip(x: seq<Octet>)
    ensures Decoded(Encoded(x)) == Some(x)
  {
    SextetsOfEncoded(x);
  }

  /** A space anywhere changes nothing. */
  lemma {:induction false} SpaceAnywhere(a: seq<Octet>, w: Octet, b: seq<Octet>)
    requires Space(w)
    ensures Decoded(a + [w] + b) == Decoded(a + b)
  {
    SpaceSkipped(a, w, b);
  }

  lemma {:induction false} SpaceSkipped(a: seq<Octet>, w: Octet, b: seq<Octet>)
    requires Space(w)
    ensures Sextets(a + [w] + b) == Sextets(a + b)
    decreases |a|
  {
    if a == [] {
      assert (a + [w] + b)[1..] == b && a + b == b;
    } else {
      SpaceSkipped(a[1..], w, b);
      assert (a + [w] + b)[1..] == a[1..] + [w] + b && (a + b)[1..] == a[1..] + b;
    }
  }

  /** A character that is neither digit nor space, before the padding. */
  predicate Bad(text: seq<Octet>, k: nat) {
    && k < |text| && !Space(text[k]) && text[k] != PAD && Value(text[k]) == None
    && forall j :: 0 <= j < k ==> text[j] != PAD
  }

  /** Decoding fails exactly when there is one. */
  lemma {:induction false} FailsExactly(text: seq<Octet>)
    ensures Decoded(text) == None <==> exists k: nat :: Bad(text, k)
    decreases |text|
  {
    if text != [] && text[0] != PAD {
      FailsExactly(text[1..]);
      forall k: nat | k > 0 ensures Bad(text, k) <==> Bad(text[1..], k - 1) {
        assert k < |text| ==> text[k] == text[1..][k - 1];
        assert forall j :: 0 < j < |text| ==> text[j] == text[1..][j - 1];
      }
      if k: nat :| Bad(text[1..], k) { assert Bad(text, k + 1); }
      if Value(text[0]) == None && !Space(text[0]) { assert Bad(text, 0); }
      else { assert !Bad(text, 0); }
    }
  }

  // ── The loop ──

  const WRAP := 0x1_0000_0000

  /** The bits of the accumulator that belong to k sextets. */
  function LowBits(accum: int, k: nat): int {
    if k == 0 then 0 else if k == 1 then accum % 64 else if k == 2 then accum % 4096 else accum % 262144
  }

  /** The sextets since the last full group, as one number. */
  function Open(vs: seq<Sextet>): int
    decreases |vs|
  {
    if |vs| >= 4 then Open(vs[4..])
    else if |vs| == 0 then 0
    else if |vs| == 1 then vs[0]
    else if |vs| == 2 then vs[0] as int * 64 + vs[1] as int
    else vs[0] as int * 4096 + vs[1] as int * 64 + vs[2] as int
  }

  /** The octet the next sextet completes, if it completes one. */
  function Completed(k: nat, n: int): seq<Octet> {
    if k == 0 then [] else if k == 1 then [n / 16 % 256] else if k == 2 then [n / 4 % 256] else [n % 256]
  }

  // The octet a sextet completes, computed from the number of the group so far.

  lemma CompletedFirst(k: nat, n: int, a: Sextet, b: Sextet)
    requires k == 1 && n == a as int * 64 + b as int
    ensures Completed(k, n) == [First(a, b)]
  {
    Divided(n, 16, a as int * 4 + b as int / 16, b as int % 16);
    Divided(First(a, b), 256, 0, First(a, b));
  }

  lemma CompletedSecond(k: nat, n: int, a: Sextet, b: Sextet, c: Sextet)
    requires k == 2 && n == (a as int * 64 + b as int) * 64 + c as int
    ensures Completed(k, n) == [Second(b, c)]
  {
    Divided(n, 4, a as int * 1024 + b as int * 16 + c as int / 4, c as int % 4);
    Divided(a as int * 1024 + b as int * 16 + c as int / 4, 256, a as int * 4 + b as int / 16,
            b as int % 16 * 16 + c as int / 4);
  }

  lemma CompletedThird(k: nat, n: int, a: Sextet, b: Sextet, c: Sextet, d: Sextet)
    requires k == 3 && n == (a as int * 4096 + b as int * 64 + c as int) * 64 + d as int
    ensures Completed(k, n) == [Third(c, d)]
  {
    Divided(n, 256, a as int * 1024 + b as int * 16 + c as int / 4, c as int % 4 * 64 + d as int);
  }

  /** How many sextets of a group have been taken. */
  function Place(vs: seq<Sextet>): (k: nat)
    ensures k < 4
  {
    |vs| % 4
  }

  lemma PlaceOfRest(vs: seq<Sextet>)
    ensures |vs| >= 4 ==> Place(vs[4..]) == Place(vs)
    ensures |vs| < 4 ==> Place(vs) == |vs|
  {
  }

  /** One more sextet at the end. */
  lemma {:induction false} OneMore(vs: seq<Sextet>, v: Sextet)
    ensures Octets(vs + [v]) == Octets(vs) + Completed(Place(vs), Open(vs) * 64 + v)
    ensures Open(vs + [v]) == if Place(vs) == 3 then 0 else Open(vs) * 64 + v
    decreases |vs|
  {
    hide Completed, First, Second, Third, Octets, Open, Place;
    PlaceOfRest(vs);
    if |vs| >= 4 {
      OneMore(vs[4..], v);
      Group(vs);
      Group(vs + [v]);
      assert (vs + [v])[4..] == vs[4..] + [v];
    } else {
      FewMore(vs, v);
    }
  }

  /** A full group of four in front. */
  lemma Group(vs: seq<Sextet>)
    requires |vs| >= 4
    ensures Octets(vs) == [First(vs[0], vs[1]), Second(vs[1], vs[2]), Third(vs[2], vs[3])] + Octets(vs[4..])
    ensures Open(vs) == Open(vs[4..])
  {
    hide First, Second, Third;
  }

  lemma FewMore(vs: seq<Sextet>, v: Sextet)
    requires |vs| < 4
    ensures Octets(vs + [v]) == Octets(vs) + Completed(|vs|, Open(vs) * 64 + v)
    ensures Open(vs + [v]) == if |vs| == 3 then 0 else Open(vs) * 64 + v
  {
    hide Octets, Open, Completed;
    if |vs| == 3 { More3(vs, v); }
    else if |vs| == 2 { More2(vs, v); }
    else if |vs| == 1 { More1(vs, v); }
    else { More0(vs, v); }
  }

  lemma More0(vs: seq<Sextet>, v: Sextet)
    requires |vs| == 0
    ensures Octets(vs + [v]) == Octets(vs) + Completed(|vs|, Open(vs) * 64 + v)
    ensures Open(vs + [v]) == if |vs| == 3 then 0 else Open(vs) * 64 + v
  {
    hide Octets, Open, Completed, First, Second, Third;
    assert vs == [] && vs + [v] == [v];
    FourOctets(v, 0, 0, 0);
    NothingCompleted(Open(vs) * 64 + v as int);
  }

  lemma More1(vs: seq<Sextet>, v: Sextet)
    requires |vs| == 1
    ensures Octets(vs + [v]) == Octets(vs) + Completed(|vs|, Open(vs) * 64 + v)
    ensures Open(vs + [v]) == if |vs| == 3 then 0 else Open(vs) * 64 + v
  {
    hide Octets, Open, Completed, First, Second, Third;
    var a := vs[0];
    assert vs == [a] && vs + [v] == [a, v];
    FourOctets(a, v, 0, 0);
    CompletedFirst(|vs|, Open(vs) * 64 + v as int, a, v);
    assert Octets(vs) + [First(a, v)] == Octets(vs + [v]);
  }

  lemma More2(vs: seq<Sextet>, v: Sextet)
    requires |vs| == 2
    ensures Octets(vs + [v]) == Octets(vs) + Completed(|vs|, Open(vs) * 64 + v)
    ensures Open(vs + [v]) == if |vs| == 3 then 0 else Open(vs) * 64 + v
  {
    hide Octets, Open, Completed, First, Second, Third;
    var a, b := vs[0], vs[1];
    assert vs == [a, b] && vs + [v] == [a, b, v];
    FourOctets(a, b, v, 0);
    CompletedSecond(|vs|, Open(vs) * 64 + v as int, a, b, v);
    assert Octets(vs) + [Second(b, v)] == Octets(vs + [v]);
  }

  lemma More3(vs: seq<Sextet>, v: Sextet)
    requires |vs| == 3
    ensures Octets(vs + [v]) == Octets(vs) + Completed(|vs|, Open(vs) * 64 + v)
    ensures Open(vs + [v]) == if |vs| == 3 then 0 else Open(vs) * 64 + v
  {
    hide Octets, Open, Completed, First, Second, Third;
    var a, b, c := vs[0], vs[1], vs[2];
    assert vs == [a, b, c] && vs + [v] == [a, b, c, v];
    FourOctets(a, b, c, v);
    CompletedThird(|vs|, Open(vs) * 64 + v as int, a, b, c, v);
    assert Octets(vs) + [Third(c, v)] == Octets(vs + [v]);
  }

  lemma FourOctets(a: Sextet, b: Sextet, c: Sextet, d: Sextet)
    ensures Octets([]) == [] == Octets([a]) && Octets([a, b]) == [First(a, b)]
    ensures Octets([a, b, c]) == [First(a, b), Second(b, c)]
    ensures Octets([a, b, c, d]) == [First(a, b), Second(b, c), Third(c, d)]
    ensures Open([]) == 0 && Open([a]) == a && Open([a, b]) == a as int * 64 + b as int
    ensures Open([a, b, c]) == a as int * 4096 + b as int * 64 + c as int && Open([a, b, c, d]) == 0
  {
    hide First, Second, Third;
    assert [a, b, c, d][4..] == [];
  }

  lemma NothingCompleted(n: int)
    ensures Completed(0, n) == []
  {
  }

  /** (accum << 6) | v, in 32 bits. */
  function Pushed(accum: int, v: int): int {
    accum * 64 % WRAP + v
  }

  /** (accum >> bits) & 0xff */
  function Top(accum: int, bits: nat): Octet {
    accum / Shift(bits) % 256
  }

  lemma NoLowBits(accum: int)
    ensures LowBits(accum, 0) == 0
  {
  }

  /** What wraps away was written out long before: the bits still needed are in place. */
  lemma AccumStep(accum: int, k: nat, v: int)
    requires 0 <= accum < WRAP && k < 4 && 0 <= v < 64
    ensures var next := Pushed(accum, v);
      && 0 <= next < WRAP
      && Completed(k, next) == Completed(k, LowBits(accum, k) * 64 + v)
      && (k < 3 ==> LowBits(next, k + 1) == LowBits(accum, k) * 64 + v)
  {
    WrapLow(accum);
    hide LowBits, Completed;
    var low := accum % 67108864;
    assert Pushed(accum, v) == low * 64 + v;
    NoLowBits(accum);
    if k == 0 { Step0(low, v); }
    else if k == 1 { Step1(accum, low, v); }
    else if k == 2 { Step2(accum, low, v); }
    else { Step3(accum, low, v); }
  }

  lemma WrapLow(accum: int)
    requires 0 <= accum < WRAP
    ensures accum * 64 % WRAP == accum % 67108864 * 64
  {
    Divided(accum * 64, WRAP, accum / 67108864, accum % 67108864 * 64);
  }

  lemma Step0(low: int, v: int)
    requires 0 <= v < 64
    ensures Completed(0, low * 64 + v) == Completed(0, v) && LowBits(low * 64 + v, 1) == v
  {
    Divided(low * 64 + v, 64, low, v);
  }

  lemma Step1(accum: int, low: int, v: int)
    requires 0 <= accum && low == accum % 67108864 && 0 <= v < 64
    ensures Completed(1, low * 64 + v) == Completed(1, accum % 64 * 64 + v)
    ensures LowBits(low * 64 + v, 2) == accum % 64 * 64 + v
  {
    Divided(accum, 64, accum / 67108864 * 1048576 + low / 64, low % 64);
    High1(low * 64 + v, low / 64, low % 64 * 64 + v);
  }

  lemma High1(x: int, h: int, n: int)
    requires x == h * 4096 + n && 0 <= n < 4096
    ensures Completed(1, x) == Completed(1, n) && LowBits(x, 2) == n
  {
    Divided(x, 4096, h, n);
    Divided(x, 16, h * 256 + n / 16, n % 16);
    Divided(h * 256 + n / 16, 256, h, n / 16);
    Divided(n / 16, 256, 0, n / 16);
  }

  lemma Step2(accum: int, low: int, v: int)
    requires 0 <= accum && low == accum % 67108864 && 0 <= v < 64
    ensures Completed(2, low * 64 + v) == Completed(2, accum % 4096 * 64 + v)
    ensures LowBits(low * 64 + v, 3) == accum % 4096 * 64 + v
  {
    Divided(accum, 4096, accum / 67108864 * 16384 + low / 4096, low % 4096);
    High2(low * 64 + v, low / 4096, low % 4096 * 64 + v);
  }

  lemma High2(x: int, h: int, n: int)
    requires x == h * 262144 + n && 0 <= n < 262144
    ensures Completed(2, x) == Completed(2, n) && LowBits(x, 3) == n
  {
    Divided(x, 262144, h, n);
    Divided(x, 4, h * 65536 + n / 4, n % 4);
    var y := n / 4;
    Divided(h * 65536 + y, 256, h * 256 + y / 256, y % 256);
  }

  lemma Step3(accum: int, low: int, v: int)
    requires 0 <= accum && low == accum % 67108864 && 0 <= v < 64
    ensures Completed(3, low * 64 + v) == Completed(3, accum % 262144 * 64 + v)
  {
    Divided(accum, 262144, accum / 67108864 * 256 + low / 262144, low % 262144);
    High3(low * 64 + v, low / 262144, low % 262144 * 64 + v);
  }

  lemma High3(x: int, h: int, n: int)
    requires x == h * 16777216 + n
    ensures Completed(3, x) == Completed(3, n)
  {
    Divided(x, 256, h * 65536 + n / 256, n % 256);
  }

  function Following(vs: seq<Sextet>, rest: Option<seq<Sextet>>): Option<seq<Sextet>> {
    match rest case None => None case Some(more) => Some(vs + more)
  }

  /** Bits read and not yet written after k sextets of a group. */
  function BitsOpen(k: nat): nat {
    if k == 0 then 0 else if k == 1 then 6 else if k == 2 then 4 else 2
  }

  /** 2 to the power of those bits. */
  function Shift(bits: nat): (p: nat)
    ensures p > 0
  {
    if bits == 0 then 1 else if bits == 2 then 4 else if bits == 4 then 16 else 64
  }

  lemma BitsStep(k: nat, accum: int)
    requires k < 4
    ensures var b := BitsOpen(k) + 6;
      if b >= 8 then Completed(k, accum) == [Top(accum, b - 8)] && BitsOpen((k + 1) % 4) == b - 8
      else Completed(k, accum) == [] && BitsOpen((k + 1) % 4) == b
  {
    assert Shift(0) == 1 && accum / 1 == accum;
  }

  lemma TakeSextet(vs: seq<Sextet>, v: Sextet, text: seq<Octet>)
    requires text != [] && Value(text[0]) == Some(v) && text[0] != PAD && !Space(text[0])
    ensures Following(vs, Sextets(text)) == Following(vs + [v], Sextets(text[1..]))
  {
    if Sextets(text[1..]).Some? {
      assert vs + ([v] + Sextets(text[1..]).value) == (vs + [v]) + Sextets(text[1..]).value;
    }
  }

  lemma BadSextet(text: seq<Octet>)
    requires text != [] && Value(text[0]) == None && text[0] != PAD && !Space(text[0])
    ensures Sextets(text) == None
  {
  }

  lemma PlaceNext(vs: seq<Sextet>, v: Sextet)
    ensures Place(vs + [v]) == if Place(vs) == 3 then 0 else Place(vs) + 1
  {
  }

  /** What the loop of the decoder keeps: the octets so far, the bits open, and their value in the accumulator. */
  ghost predicate Decoding(vs: seq<Sextet>, out: seq<Octet>, accum: int, bits: nat) {
    0 <= accum < WRAP && out == Octets(vs) && bits == BitsOpen(Place(vs)) && LowBits(accum, Place(vs)) == Open(vs)
  }

  lemma DecodingStarts()
    ensures Decoding([], [], 0, 0)
  {
  }

  lemma DecodingStep(vs: seq<Sextet>, out: seq<Octet>, accum: int, bits: nat, v: Sextet)
    requires Decoding(vs, out, accum, bits)
    ensures var next := Pushed(accum, v);
      if bits + 6 >= 8 then Decoding(vs + [v], out + [Top(next, bits - 2)], next, bits - 2)
      else Decoding(vs + [v], out, next, bits + 6)
  {
    var k, next := Place(vs), Pushed(accum, v);
    AccumStep(accum, k, v);
    OneMore(vs, v);
    PlaceNext(vs, v);
    BitsStep(k, next);
    NoLowBits(next);
    hide Octets, Open, LowBits, Completed, BitsOpen, Top, Pushed;
    assert Octets(vs) + [] == Octets(vs);
  }

  lemma NothingTaken(input: seq<Octet>)
    ensures input[0..] == input && Following([], Sextets(input)) == Sextets(input)
  {
    if Sextets(input).Some? { assert [] + Sextets(input).value == Sextets(input).value; }
  }

  lemma DecodingEnds(vs: seq<Sextet>, out: seq<Octet>, accum: int, bits: nat, input: seq<Octet>, rest: seq<Octet>)
    requires Decoding(vs, out, accum, bits) && Sextets(input) == Following(vs, Sextets(rest))
    requires rest == [] || rest[0] == PAD
    ensures Decoded(input) == Some(out)
  {
    assert vs + [] == vs;
  }

  method Decode(input: seq<Octet>) returns (r: Option<seq<Octet>>)
    ensures r == Decoded(input)
  {
    var table := BuildDecodeTable();
    hide Decoding, Value, Pushed, Top, Octets;
    var out: seq<Octet> := [];
    var accum: int := 0;
    var bits: nat := 0;
    ghost var vs: seq<Sextet> := [];
    var i := 0;
    NothingTaken(input);
    DecodingStarts();
    while i < |input|
      invariant i <= |input| && IsDecodeTable(table)
      invariant Sextets(input) == Following(vs, Sextets(input[i..])) && Decoding(vs, out, accum, bits)
    {
      var c := input[i];
      assert input[i..][1..] == input[i + 1..] && input[i..][0] == c;
      i := i + 1;
      if Space(c) { continue; }
      if c == PAD {
        DecodingEnds(vs, out, accum, bits, input, input[i - 1..]);
        return Some(out);
      }
      var val := table[c];
      if val < 0 {
        BadSextet(input[i - 1..]);
        return None;
      }
      TakeSextet(vs, val, input[i - 1..]);
      DecodingStep(vs, out, accum, bits, val);
      accum := Pushed(accum, val);
      bits := bits + 6;
      if bits >= 8 {
        bits := bits - 8;
        out := out + [Top(accum, bits)];
      }
      vs := vs + [val];
    }
    DecodingEnds(vs, out, accum, bits, input, input[i..]);
    r := Some(out);
  }
}
