/**
 * The outbound address filter: CIDR prefixes compared byte by byte with a mask, the internal networks,
 * and the allow rules that let one of their addresses through.
 */
module FetchPolicy {

  import opened Division
  import opened Strings
  import opened Wrappers

  type Octet = bv8

  function Pow2(n: nat): (p: nat)
    ensures p > 0
  {
    if n == 0 then 1 else 2 * Pow2(n - 1)
  }

  /** The k-th bit of a byte from the left, k counted from 1. */
  function Bit(x: Octet, k: nat): (b: int)
    requires 1 <= k <= 8
    ensures b == 0 || b == 1
  {
    var mask: bv8 := if k == 1 then 0x80 else if k == 2 then 0x40 else if k == 3 then 0x20 else if k == 4 then 0x10
                     else if k == 5 then 0x08 else if k == 6 then 0x04 else if k == 7 then 0x02 else 0x01;
    if x & mask != 0 then 1 else 0
  }

  /** The number the first k bits of a byte spell. */
  function High(x: Octet, k: nat): (n: int)
    requires k <= 8
    ensures 0 <= n < Pow2(k)
  {
    if k == 0 then 0 else 2 * High(x, k - 1) + Bit(x, k)
  }

  function Num(x: Octet): (n: int)
    ensures 0 <= n < Pow2(8)
  {
    High(x, 8)
  }

  /** The bytes of an address as one number, the first byte highest. */
  function BigEndian(a: seq<Octet>): (n: nat)
    decreases |a|
  {
    if a == [] then 0 else Num(a[0]) * Pow2(8 * (|a| - 1)) + BigEndian(a[1..])
  }

  // ─── Prefixes ──────────────────────────────────────────────────────────────

  /** The byte with its low bits cleared by the mask 0xff << (8 - rest). */
  function Masked(x: Octet, rest: nat): bv8
    requires 1 <= rest < 8
  {
    x & ((0xff as bv8) << (8 - rest))
  }

  predicate PrefixMatch(a: seq<Octet>, net: seq<Octet>, prefix: nat)
    requires |a| == |net| && prefix <= 8 * |a|
  {
    var full, rest := prefix / 8, prefix % 8;
    a[..full] == net[..full] && (rest == 0 || Masked(a[full], rest) == Masked(net[full], rest))
  }

  predicate SameBits(x: Octet, y: Octet, k: nat)
    requires k <= 8
  {
    k == 0 || (SameBits(x, y, k - 1) && Bit(x, k) == Bit(y, k))
  }

  lemma {:induction false} SameBitsSameHigh(x: Octet, y: Octet, k: nat)
    requires k <= 8
    ensures SameBits(x, y, k) <==> High(x, k) == High(y, k)
  {
    if k > 0 { SameBitsSameHigh(x, y, k - 1); }
    hide Bit;
  }

  /** Dividing by a power of two leaves the first bits. */
  lemma {:induction false} HighDivides(x: Octet, k: nat, m: nat)
    requires k <= m <= 8
    ensures High(x, m) / Pow2(m - k) == High(x, k)
  {
    if k == m {
      assert Pow2(0) == 1;
    } else {
      HighDivides(x, k, m - 1);
      assert High(x, m) == 2 * High(x, m - 1) + Bit(x, m);
      NextPower(m - k);
      hide High, Bit, Pow2;
      assert m - k - 1 == m - 1 - k;
      Halve(High(x, m - 1), Bit(x, m), Pow2(m - 1 - k));
    }
  }

  lemma Halve(h: int, b: int, p: int)
    requires 0 <= h && 0 <= b <= 1 && p > 0
    ensures (2 * h + b) / (2 * p) == h / p
  {
    var q, r := h / p, h % p;
    assert 2 * h + b == q * (2 * p) + (2 * r + b);
    Divided(2 * h + b, 2 * p, q, 2 * r + b);
  }

  lemma Masks(x: Octet)
    ensures Masked(x, 1) == x & 0x80 && Masked(x, 2) == x & 0xc0 && Masked(x, 3) == x & 0xe0 && Masked(x, 4) == x & 0xf0
    ensures Masked(x, 5) == x & 0xf8 && Masked(x, 6) == x & 0xfc && Masked(x, 7) == x & 0xfe
  {
    assert (0xff as bv8) << 7 == 0x80 && (0xff as bv8) << 6 == 0xc0 && (0xff as bv8) << 5 == 0xe0
      && (0xff as bv8) << 4 == 0xf0;
    assert (0xff as bv8) << 3 == 0xf8 && (0xff as bv8) << 2 == 0xfc && (0xff as bv8) << 1 == 0xfe;
  }

  lemma MaskIsBits(x: Octet, y: Octet, rest: nat)
    requires 1 <= rest < 8
    ensures Masked(x, rest) == Masked(y, rest) <==> SameBits(x, y, rest)
  {
    hide Masked, SameBits;
    Masks(x);
    Masks(y);
    if rest == 1 { Mask1(x, y); }
    else if rest == 2 { Mask2(x, y); }
    else if rest == 3 { Mask3(x, y); }
    else if rest == 4 { Mask4(x, y); }
    else if rest == 5 { Mask5(x, y); }
    else if rest == 6 { Mask6(x, y); }
    else { Mask7(x, y); }
  }

  lemma Mask1(x: Octet, y: Octet)
    ensures x & 0x80 == y & 0x80 <==> SameBits(x, y, 1)
  {
  }

  lemma Mask2(x: Octet, y: Octet)
    ensures x & 0xc0 == y & 0xc0 <==> SameBits(x, y, 2)
  {
    Mask1(x, y);
  }

  lemma Mask3(x: Octet, y: Octet)
    ensures x & 0xe0 == y & 0xe0 <==> SameBits(x, y, 3)
  {
    Mask2(x, y);
  }

  lemma Mask4(x: Octet, y: Octet)
    ensures x & 0xf0 == y & 0xf0 <==> SameBits(x, y, 4)
  {
    Mask3(x, y);
  }

  lemma Mask5(x: Octet, y: Octet)
    ensures x & 0xf8 == y & 0xf8 <==> SameBits(x, y, 5)
  {
    Mask4(x, y);
  }

  lemma Mask6(x: Octet, y: Octet)
    ensures x & 0xfc == y & 0xfc <==> SameBits(x, y, 6)
  {
    Mask5(x, y);
  }

  lemma Mask7(x: Octet, y: Octet)
    ensures x & 0xfe == y & 0xfe <==> SameBits(x, y, 7)
  {
    Mask6(x, y);
  }

  lemma WholeByte(x: Octet, y: Octet)
    ensures x == y <==> Num(x) == Num(y)
  {
    Mask7(x, y);
    assert x & 0xfe == y & 0xfe && x & 0x01 == y & 0x01 ==> x == y;
    SameBitsSameHigh(x, y, 8);
  }

  /** The mask and the division by a power of two ask the same of two bytes. */
  lemma MaskDivides(x: Octet, y: Octet, rest: nat)
    requires 1 <= rest < 8
    ensures Masked(x, rest) == Masked(y, rest) <==> Num(x) / Pow2(8 - rest) == Num(y) / Pow2(8 - rest)
  {
    hide Masked, SameBits, High, Pow2;
    MaskIsBits(x, y, rest);
    SameBitsSameHigh(x, y, rest);
    HighDivides(x, rest, 8);
    HighDivides(y, rest, 8);
  }

  // ── A whole address ──

  lemma {:induction false} PowersMultiply(a: nat, b: nat)
    ensures Pow2(a + b) == Pow2(a) * Pow2(b)
  {
    if a == 0 {
      assert Pow2(0) == 1 && Pow2(0 + b) == Pow2(b);
    } else {
      PowersMultiply(a - 1, b);
      NextPower(a);
      NextPower(a + b);
      hide Pow2;
      assert a + b - 1 == a - 1 + b;
      TwiceProduct(Pow2(a - 1), Pow2(b));
    }
  }

  lemma NextPower(a: nat)
    requires a > 0
    ensures Pow2(a) == 2 * Pow2(a - 1)
  {
  }

  lemma TwiceProduct(p: int, q: int)
    ensures 2 * (p * q) == (2 * p) * q
  {
  }

  lemma {:induction false} BigEndianBelow(a: seq<Octet>)
    ensures BigEndian(a) < Pow2(8 * |a|)
    decreases |a|
  {
    if a != [] {
      BigEndianBelow(a[1..]);
      PowersMultiply(8, 8 * (|a| - 1));
      DigitBelow(Num(a[0]), Pow2(8), BigEndian(a[1..]), Pow2(8 * (|a| - 1)));
    }
  }

  lemma DigitBelow(x: int, base: int, low: int, p: int)
    requires 0 <= x < base && 0 <= low < p
    ensures x * p + low < base * p
  {
    Times(x + 1, base, p);
    assert (x + 1) * p == x * p + p;
  }

  /** The first prefix bits of an address, as a number. */
  function Network(a: seq<Octet>, prefix: nat): int
    requires prefix <= 8 * |a|
  {
    BigEndian(a) / Pow2(8 * |a| - prefix)
  }

  /** A prefix of a byte or more: the byte, and then the rest of the prefix. */
  lemma NetworkOfRest(a: seq<Octet>, prefix: nat)
    requires a != [] && 8 <= prefix <= 8 * |a|
    ensures Network(a, prefix) == Num(a[0]) * Pow2(prefix - 8) + Network(a[1..], prefix - 8)
    ensures 0 <= Network(a[1..], prefix - 8) < Pow2(prefix - 8)
  {
    PowersMultiply(prefix - 8, 8 * |a| - prefix);
    BigEndianBelow(a[1..]);
    assert BigEndian(a) == Num(a[0]) * (Pow2(prefix - 8) * Pow2(8 * |a| - prefix)) + BigEndian(a[1..]);
    hide Num, BigEndian, Pow2;
    RestArithmetic(Num(a[0]), BigEndian(a[1..]), Pow2(8 * |a| - prefix), Pow2(prefix - 8));
  }

  lemma RestArithmetic(x: int, low: int, d: int, p: int)
    requires d > 0 && p > 0 && 0 <= low < p * d
    ensures (x * (p * d) + low) / d == x * p + low / d && 0 <= low / d < p
  {
    var q, r := low / d, low % d;
    QuotientBelow(low, d, p);
    assert x * (p * d) + low == (x * p + q) * d + r;
    Divided(x * (p * d) + low, d, x * p + q, r);
  }

  lemma QuotientBelow(n: nat, d: nat, p: nat)
    requires d > 0 && n < p * d
    ensures n / d < p
  {
    if n / d >= p { Times(p, n / d, d); }
  }

  /** A prefix shorter than a byte: the first bits of that byte. */
  lemma NetworkOfByte(a: seq<Octet>, prefix: nat)
    requires a != [] && prefix < 8
    ensures Network(a, prefix) == Num(a[0]) / Pow2(8 - prefix)
  {
    PowersMultiply(8 - prefix, 8 * (|a| - 1));
    BigEndianBelow(a[1..]);
    assert BigEndian(a) == Num(a[0]) * Pow2(8 * (|a| - 1)) + BigEndian(a[1..]);
    hide Num, BigEndian, Pow2;
    ByteArithmetic(Num(a[0]), BigEndian(a[1..]), Pow2(8 - prefix), Pow2(8 * (|a| - 1)));
  }

  lemma ByteArithmetic(x: int, low: int, e: int, p: int)
    requires e > 0 && p > 0 && 0 <= x && 0 <= low < p
    ensures (x * p + low) / (e * p) == x / e
  {
    var q, r := x / e, x % e;
    Times(r + 1, e, p);
    assert (r + 1) * p == r * p + p;
    assert (q * e + r) * p == q * (e * p) + r * p;
    Divided(x * p + low, e * p, q, r * p + low);
  }

  /** Byte and mask against division: the prefix matches when the first prefix bits are the same number. */
  lemma {:induction false} PrefixIsDivision(a: seq<Octet>, net: seq<Octet>, prefix: nat)
    requires |a| == |net| && prefix <= 8 * |a|
    ensures PrefixMatch(a, net, prefix) <==> Network(a, prefix) == Network(net, prefix)
    decreases |a|
  {
    if prefix >= 8 {
      PrefixIsDivision(a[1..], net[1..], prefix - 8);
      NetworkOfRest(a, prefix);
      NetworkOfRest(net, prefix);
      WholeByte(a[0], net[0]);
      PrefixOfRest(a, net, prefix);
      hide Num, Network, PrefixMatch;
      SameDigits(Num(a[0]), Num(net[0]), Network(a[1..], prefix - 8), Network(net[1..], prefix - 8), Pow2(prefix - 8));
    } else if prefix > 0 {
      NetworkOfByte(a, prefix);
      NetworkOfByte(net, prefix);
      MaskDivides(a[0], net[0], prefix);
      PrefixOfByte(a, net, prefix);
      hide Num, Network, PrefixMatch, Masked;
    } else {
      NoNetwork(a);
      NoNetwork(net);
      PrefixOfNothing(a, net);
      hide Network, PrefixMatch;
    }
  }

  lemma PrefixOfByte(a: seq<Octet>, net: seq<Octet>, prefix: nat)
    requires |a| == |net| && a != [] && 0 < prefix < 8
    ensures PrefixMatch(a, net, prefix) <==> Masked(a[0], prefix) == Masked(net[0], prefix)
  {
    hide Masked;
    assert prefix / 8 == 0 && prefix % 8 == prefix;
    assert a[..0] == net[..0];
  }

  lemma PrefixOfNothing(a: seq<Octet>, net: seq<Octet>)
    requires |a| == |net|
    ensures PrefixMatch(a, net, 0)
  {
    assert a[..0] == net[..0];
  }

  lemma NoNetwork(a: seq<Octet>)
    ensures Network(a, 0) == 0
  {
    BigEndianBelow(a);
    hide BigEndian, Pow2;
    Divided(BigEndian(a), Pow2(8 * |a|), 0, BigEndian(a));
  }

  lemma SameDigits(x: int, y: int, u: int, v: int, p: int)
    requires p > 0 && 0 <= u < p && 0 <= v < p
    ensures x * p + u == y * p + v <==> x == y && u == v
  {
    if x < y { Times(x + 1, y, p); }
    if x > y { Times(y + 1, x, p); }
  }

  lemma PrefixOfRest(a: seq<Octet>, net: seq<Octet>, prefix: nat)
    requires |a| == |net| && 8 <= prefix <= 8 * |a|
    ensures PrefixMatch(a, net, prefix) <==> a[0] == net[0] && PrefixMatch(a[1..], net[1..], prefix - 8)
  {
    var full := prefix / 8;
    assert (prefix - 8) / 8 == full - 1 && (prefix - 8) % 8 == prefix % 8;
    assert a[..full] == [a[0]] + a[1..][..full - 1] && net[..full] == [net[0]] + net[1..][..full - 1];
    if a[..full] == net[..full] {
      assert a[..full][0] == net[..full][0];
      assert a[..full][1..] == a[1..][..full - 1] && net[..full][1..] == net[1..][..full - 1];
    }
  }

  /** A network whose host bits are zero is an interval of numbers. */
  lemma PrefixIsInterval(a: seq<Octet>, net: seq<Octet>, prefix: nat)
    requires |a| == |net| && prefix <= 8 * |a| && BigEndian(net) % Pow2(8 * |a| - prefix) == 0
    ensures PrefixMatch(a, net, prefix) <==> BigEndian(net) <= BigEndian(a) < BigEndian(net) + Pow2(8 * |a| - prefix)
  {
    PrefixIsDivision(a, net, prefix);
    hide PrefixMatch, BigEndian, Pow2;
    IntervalArithmetic(BigEndian(a), BigEndian(net), Pow2(8 * |a| - prefix));
  }

  lemma IntervalArithmetic(n: int, low: int, d: int)
    requires d > 0 && n >= 0 && low >= 0 && low % d == 0
    ensures n / d == low / d <==> low <= n < low + d
  {
    var q := low / d;
    assert low == q * d;
    if low <= n < low + d { Divided(n, d, q, n - low); }
  }

  // ─── Internal networks ─────────────────────────────────────────────────────

  datatype Net = Net(bytes: seq<Octet>, prefix: nat)

  const NETS_V4: seq<Net> := [
    Net([0, 0, 0, 0], 8), Net([10, 0, 0, 0], 8), Net([100, 64, 0, 0], 10), Net([127, 0, 0, 0], 8),
      Net([169, 254, 0, 0], 16),
    Net([172, 16, 0, 0], 12), Net([192, 0, 0, 0], 24), Net([192, 0, 2, 0], 24), Net([192, 88, 99, 0], 24),
      Net([192, 168, 0, 0], 16),
    Net([198, 18, 0, 0], 15), Net([198, 51, 100, 0], 24), Net([203, 0, 113, 0], 24), Net([224, 0, 0, 0], 4),
      Net([240, 0, 0, 0], 4)]

  predicate Matches(a: seq<Octet>, n: Net)
    requires |a| == |n.bytes| && n.prefix <= 8 * |a|
  {
    PrefixMatch(a, n.bytes, n.prefix)
  }

  lemma NetsV4Shape()
    ensures forall n :: n in NETS_V4 ==> |n.bytes| == 4 && n.prefix <= 32
  {
  }

  predicate InternalV4(a: seq<Octet>)
    requires |a| == 4
  {
    NetsV4Shape();
    exists n :: n in NETS_V4 && Matches(a, n)
  }

  /** a.b.c.d as a number. */
  function Dotted(a: int, b: int, c: int, d: int): int {
    ((a * 256 + b) * 256 + c) * 256 + d
  }

  /** The internal IPv4 addresses, as intervals of numbers. */
  predicate InInternalRanges(n: int) {
    || 0 <= n < Dotted(1, 0, 0, 0)
    || Dotted(10, 0, 0, 0) <= n < Dotted(11, 0, 0, 0)
    || Dotted(100, 64, 0, 0) <= n < Dotted(100, 128, 0, 0)
    || Dotted(127, 0, 0, 0) <= n < Dotted(128, 0, 0, 0)
    || Dotted(169, 254, 0, 0) <= n < Dotted(169, 255, 0, 0)
    || Dotted(172, 16, 0, 0) <= n < Dotted(172, 32, 0, 0)
    || Dotted(192, 0, 0, 0) <= n < Dotted(192, 0, 1, 0)
    || Dotted(192, 0, 2, 0) <= n < Dotted(192, 0, 3, 0)
    || Dotted(192, 88, 99, 0) <= n < Dotted(192, 88, 100, 0)
    || Dotted(192, 168, 0, 0) <= n < Dotted(192, 169, 0, 0)
    || Dotted(198, 18, 0, 0) <= n < Dotted(198, 20, 0, 0)
    || Dotted(198, 51, 100, 0) <= n < Dotted(198, 51, 101, 0)
    || Dotted(203, 0, 113, 0) <= n < Dotted(203, 0, 114, 0)
    || Dotted(224, 0, 0, 0) <= n
  }

  lemma PowersOf2()
    ensures Pow2(8) == 256 && Pow2(16) == 65536 && Pow2(17) == 131072 && Pow2(20) == 1048576 && Pow2(22) == 4194304
    ensures Pow2(24) == 16777216 && Pow2(28) == 268435456 && Pow2(0) == 1
  {
    PowersMultiply(8, 8);
    PowersMultiply(16, 8);
    PowersMultiply(16, 1);
    PowersMultiply(16, 4);
    PowersMultiply(16, 6);
    PowersMultiply(16, 12);
    PowersMultiply(8, 4);
    assert Pow2(4) == 16 && Pow2(6) == 64 && Pow2(8) == 256 && Pow2(1) == 2;
    assert Pow2(12) == 4096;
  }

  /** The first byte counts so many times what the rest can. */
  lemma HeadByte(a: seq<Octet>, p: int, rest: int)
    requires a != [] && Pow2(8 * (|a| - 1)) == p && BigEndian(a[1..]) == rest
    ensures BigEndian(a) == Num(a[0]) * p + rest
  {
    hide Num;
  }

  lemma BelowWord(a: seq<Octet>)
    requires |a| == 4
    ensures BigEndian(a) < 4294967296
  {
    BigEndianBelow(a);
    PowersOf2();
    hide Pow2;
    PowersMultiply(24, 8);
  }

  lemma TwoBytes(a: seq<Octet>)
    requires |a| == 2
    ensures BigEndian(a) == Num(a[0]) * 256 + Num(a[1])
  {
    assert BigEndian([]) == 0 && Pow2(0) == 1;
    assert Pow2(8) == 256 by { PowersOf2(); }
    hide Num, Pow2, BigEndian;
    assert a[1..][1..] == [];
    HeadByte(a[1..], 1, 0);
    HeadByte(a, 256, Num(a[1]));
  }

  lemma ThreeBytes(a: seq<Octet>)
    requires |a| == 3
    ensures BigEndian(a) == Num(a[0]) * 65536 + Num(a[1]) * 256 + Num(a[2])
  {
    assert Pow2(16) == 65536 by { PowersOf2(); }
    hide Num, Pow2, BigEndian;
    TwoBytes(a[1..]);
    HeadByte(a, 65536, Num(a[1]) * 256 + Num(a[2]));
  }

  lemma FourBytes(a: seq<Octet>)
    requires |a| == 4
    ensures BigEndian(a) == Dotted(Num(a[0]), Num(a[1]), Num(a[2]), Num(a[3]))
    ensures BigEndian(a) < Dotted(256, 0, 0, 0)
  {
    assert Pow2(24) == 16777216 by { PowersOf2(); }
    BelowWord(a);
    hide Num, Pow2, BigEndian;
    ThreeBytes(a[1..]);
    HeadByte(a, 16777216, Num(a[1]) * 65536 + Num(a[2]) * 256 + Num(a[3]));
  }

  lemma NumBits(x: Octet)
    ensures Num(x) == 128 * Bit(x, 1) + 64 * Bit(x, 2) + 32 * Bit(x, 3) + 16 * Bit(x, 4) + 8 * Bit(x, 5)
            + 4 * Bit(x, 6) + 2 * Bit(x, 7) + Bit(x, 8)
  {
    hide Bit;
    assert High(x, 0) == 0;
    assert High(x, 1) == Bit(x, 1);
    assert High(x, 2) == 2 * High(x, 1) + Bit(x, 2);
    assert High(x, 3) == 2 * High(x, 2) + Bit(x, 3);
    assert High(x, 4) == 2 * High(x, 3) + Bit(x, 4);
    assert High(x, 5) == 2 * High(x, 4) + Bit(x, 5);
    assert High(x, 6) == 2 * High(x, 5) + Bit(x, 6);
    assert High(x, 7) == 2 * High(x, 6) + Bit(x, 7);
    assert High(x, 8) == 2 * High(x, 7) + Bit(x, 8);
  }

  lemma NetBytes1()
    ensures Num(0) == 0 && Num(2) == 2 && Num(10) == 10 && Num(16) == 16 && Num(18) == 18 && Num(51) == 51
  {
    hide Num;
    NumBits(0);
    NumBits(2);
    NumBits(10);
    NumBits(16);
    NumBits(18);
    NumBits(51);
  }

  lemma NetBytes2()
    ensures Num(64) == 64 && Num(88) == 88 && Num(99) == 99 && Num(100) == 100 && Num(113) == 113 && Num(127) == 127
  {
    hide Num;
    NumBits(64);
    NumBits(88);
    NumBits(99);
    NumBits(100);
    NumBits(113);
    NumBits(127);
  }

  lemma NetBytes3()
    ensures Num(168) == 168 && Num(169) == 169 && Num(172) == 172 && Num(192) == 192 && Num(198) == 198
    ensures Num(203) == 203
  {
    hide Num;
    NumBits(168);
    NumBits(169);
    NumBits(172);
    NumBits(192);
    NumBits(198);
    NumBits(203);
  }

  lemma NetBytes4()
    ensures Num(224) == 224 && Num(240) == 240 && Num(254) == 254
  {
    hide Num;
    NumBits(224);
    NumBits(240);
    NumBits(254);
  }

  /** The bytes the networks are written with. */
  lemma NetBytes()
    ensures Num(0) == 0 && Num(2) == 2 && Num(10) == 10 && Num(16) == 16 && Num(18) == 18 && Num(51) == 51
    ensures Num(64) == 64 && Num(88) == 88 && Num(99) == 99 && Num(100) == 100 && Num(113) == 113 && Num(127) == 127
    ensures Num(168) == 168 && Num(169) == 169 && Num(172) == 172 && Num(192) == 192 && Num(198) == 198
    ensures Num(203) == 203
    ensures Num(224) == 224 && Num(240) == 240 && Num(254) == 254
  {
    hide Num;
    NetBytes1();
    NetBytes2();
    NetBytes3();
    NetBytes4();
  }

  /** The network's number is a multiple of its size. */
  lemma NetIsRange(a: seq<Octet>, net: seq<Octet>, low: int, prefix: nat, size: int, multiple: int)
    requires |a| == |net| == 4 && prefix <= 32 && low == Dotted(Num(net[0]), Num(net[1]), Num(net[2]), Num(net[3]))
    requires Pow2(32 - prefix) == size && low == multiple * size
    ensures PrefixMatch(a, net, prefix) <==> low <= BigEndian(a) < low + size
  {
    FourBytes(net);
    hide BigEndian, Num, Pow2, PrefixMatch, Dotted;
    Divided(low, size, multiple, 0);
    PrefixIsInterval(a, net, prefix);
  }

  lemma EachNet1(a: seq<Octet>)
    requires |a| == 4
    ensures (
      || PrefixMatch(a, [0, 0, 0, 0], 8)
      || PrefixMatch(a, [10, 0, 0, 0], 8)
      || PrefixMatch(a, [100, 64, 0, 0], 10)
      || PrefixMatch(a, [127, 0, 0, 0], 8)
      || PrefixMatch(a, [169, 254, 0, 0], 16)
      ) ==> InternalV4(a)
  {
    hide PrefixMatch, InternalV4;
    MatchAt(a, 0, Net([0, 0, 0, 0], 8));
    MatchAt(a, 1, Net([10, 0, 0, 0], 8));
    MatchAt(a, 2, Net([100, 64, 0, 0], 10));
    MatchAt(a, 3, Net([127, 0, 0, 0], 8));
    MatchAt(a, 4, Net([169, 254, 0, 0], 16));
  }

  lemma EachNet2(a: seq<Octet>)
    requires |a| == 4
    ensures (
      || PrefixMatch(a, [172, 16, 0, 0], 12)
      || PrefixMatch(a, [192, 0, 0, 0], 24)
      || PrefixMatch(a, [192, 0, 2, 0], 24)
      || PrefixMatch(a, [192, 88, 99, 0], 24)
      || PrefixMatch(a, [192, 168, 0, 0], 16)
      ) ==> InternalV4(a)
  {
    hide PrefixMatch, InternalV4;
    MatchAt(a, 5, Net([172, 16, 0, 0], 12));
    MatchAt(a, 6, Net([192, 0, 0, 0], 24));
    MatchAt(a, 7, Net([192, 0, 2, 0], 24));
    MatchAt(a, 8, Net([192, 88, 99, 0], 24));
    MatchAt(a, 9, Net([192, 168, 0, 0], 16));
  }

  lemma EachNet3(a: seq<Octet>)
    requires |a| == 4
    ensures (
      || PrefixMatch(a, [198, 18, 0, 0], 15)
      || PrefixMatch(a, [198, 51, 100, 0], 24)
      || PrefixMatch(a, [203, 0, 113, 0], 24)
      || PrefixMatch(a, [224, 0, 0, 0], 4)
      || PrefixMatch(a, [240, 0, 0, 0], 4)
      ) ==> InternalV4(a)
  {
    hide PrefixMatch, InternalV4;
    MatchAt(a, 10, Net([198, 18, 0, 0], 15));
    MatchAt(a, 11, Net([198, 51, 100, 0], 24));
    MatchAt(a, 12, Net([203, 0, 113, 0], 24));
    MatchAt(a, 13, Net([224, 0, 0, 0], 4));
    MatchAt(a, 14, Net([240, 0, 0, 0], 4));
  }

  lemma AnyNet(a: seq<Octet>)
    requires |a| == 4
    ensures InternalV4(a) <==>
      || PrefixMatch(a, [0, 0, 0, 0], 8)
      || PrefixMatch(a, [10, 0, 0, 0], 8)
      || PrefixMatch(a, [100, 64, 0, 0], 10)
      || PrefixMatch(a, [127, 0, 0, 0], 8)
      || PrefixMatch(a, [169, 254, 0, 0], 16)
      || PrefixMatch(a, [172, 16, 0, 0], 12)
      || PrefixMatch(a, [192, 0, 0, 0], 24)
      || PrefixMatch(a, [192, 0, 2, 0], 24)
      || PrefixMatch(a, [192, 88, 99, 0], 24)
      || PrefixMatch(a, [192, 168, 0, 0], 16)
      || PrefixMatch(a, [198, 18, 0, 0], 15)
      || PrefixMatch(a, [198, 51, 100, 0], 24)
      || PrefixMatch(a, [203, 0, 113, 0], 24)
      || PrefixMatch(a, [224, 0, 0, 0], 4)
      || PrefixMatch(a, [240, 0, 0, 0], 4)
  {
    hide PrefixMatch, InternalV4;
    EachNet1(a);
    EachNet2(a);
    EachNet3(a);
    if InternalV4(a) { SomeNet(a); }
  }

  lemma SomeNet1(a: seq<Octet>, i: nat)
    requires |a| == 4 && 0 <= i < 5 && |NETS_V4[i].bytes| == 4 && NETS_V4[i].prefix <= 32 && Matches(a, NETS_V4[i])
    ensures
      || PrefixMatch(a, [0, 0, 0, 0], 8)
      || PrefixMatch(a, [10, 0, 0, 0], 8)
      || PrefixMatch(a, [100, 64, 0, 0], 10)
      || PrefixMatch(a, [127, 0, 0, 0], 8)
      || PrefixMatch(a, [169, 254, 0, 0], 16)
  {
    hide PrefixMatch;
  }

  lemma SomeNet2(a: seq<Octet>, i: nat)
    requires |a| == 4 && 5 <= i < 10 && |NETS_V4[i].bytes| == 4 && NETS_V4[i].prefix <= 32 && Matches(a, NETS_V4[i])
    ensures
      || PrefixMatch(a, [172, 16, 0, 0], 12)
      || PrefixMatch(a, [192, 0, 0, 0], 24)
      || PrefixMatch(a, [192, 0, 2, 0], 24)
      || PrefixMatch(a, [192, 88, 99, 0], 24)
      || PrefixMatch(a, [192, 168, 0, 0], 16)
  {
    hide PrefixMatch;
  }

  lemma SomeNet3(a: seq<Octet>, i: nat)
    requires |a| == 4 && 10 <= i < 15 && |NETS_V4[i].bytes| == 4 && NETS_V4[i].prefix <= 32 && Matches(a, NETS_V4[i])
    ensures
      || PrefixMatch(a, [198, 18, 0, 0], 15)
      || PrefixMatch(a, [198, 51, 100, 0], 24)
      || PrefixMatch(a, [203, 0, 113, 0], 24)
      || PrefixMatch(a, [224, 0, 0, 0], 4)
      || PrefixMatch(a, [240, 0, 0, 0], 4)
  {
    hide PrefixMatch;
  }

  lemma SomeNet(a: seq<Octet>)
    requires |a| == 4 && InternalV4(a)
    ensures
      || PrefixMatch(a, [0, 0, 0, 0], 8)
      || PrefixMatch(a, [10, 0, 0, 0], 8)
      || PrefixMatch(a, [100, 64, 0, 0], 10)
      || PrefixMatch(a, [127, 0, 0, 0], 8)
      || PrefixMatch(a, [169, 254, 0, 0], 16)
      || PrefixMatch(a, [172, 16, 0, 0], 12)
      || PrefixMatch(a, [192, 0, 0, 0], 24)
      || PrefixMatch(a, [192, 0, 2, 0], 24)
      || PrefixMatch(a, [192, 88, 99, 0], 24)
      || PrefixMatch(a, [192, 168, 0, 0], 16)
      || PrefixMatch(a, [198, 18, 0, 0], 15)
      || PrefixMatch(a, [198, 51, 100, 0], 24)
      || PrefixMatch(a, [203, 0, 113, 0], 24)
      || PrefixMatch(a, [224, 0, 0, 0], 4)
      || PrefixMatch(a, [240, 0, 0, 0], 4)
  {
    hide PrefixMatch;
    NetsV4Shape();
    var n :| n in NETS_V4 && Matches(a, n);
    var i :| 0 <= i < |NETS_V4| && NETS_V4[i] == n;
    hide NETS_V4;
    if i < 5 { SomeNet1(a, i); } else if i < 10 { SomeNet2(a, i); } else { SomeNet3(a, i); }
  }

  lemma MatchAt(a: seq<Octet>, i: nat, n: Net)
    requires |a| == 4 && i < |NETS_V4| && NETS_V4[i] == n && |n.bytes| == 4 && n.prefix <= 32
    ensures PrefixMatch(a, n.bytes, n.prefix) ==> InternalV4(a)
  {
    if PrefixMatch(a, n.bytes, n.prefix) {
      NetsV4Shape();
      assert n in NETS_V4 && Matches(a, n);
    }
  }

  /** The network of the byte 0 four times. */
  lemma ZeroNetRange(a: seq<Octet>, net: seq<Octet>)
    requires |a| == |net| == 4 && forall i :: 0 <= i < 4 ==> Num(net[i]) == 0
    ensures PrefixMatch(a, net, 8) <==> BigEndian(a) < 16777216
  {
    assert Pow2(24) == 16777216 by { PowersOf2(); }
    FourBytes(net);
    assert BigEndian(net) == 0;
    hide PrefixMatch, BigEndian, Num, Pow2, Dotted;
    Divided(0, 16777216, 0, 0);
    PrefixIsInterval(a, net, 8);
  }

  lemma ThisNetworkRange(a: seq<Octet>)
    requires |a| == 4
    ensures PrefixMatch(a, [0, 0, 0, 0], 8) <==> BigEndian(a) < Dotted(1, 0, 0, 0)
  {
    assert Num(0) == 0 by { NetBytes(); }
    hide PrefixMatch, BigEndian, Num, Pow2;
    ZeroNetRange(a, [0, 0, 0, 0]);
  }

  lemma TenRange(a: seq<Octet>)
    requires |a| == 4
    ensures PrefixMatch(a, [10, 0, 0, 0], 8) <==> Dotted(10, 0, 0, 0) <= BigEndian(a) < Dotted(11, 0, 0, 0)
  {
    NetBytes();
    PowersOf2();
    hide PrefixMatch, BigEndian, Num, Pow2;
    var net: seq<Octet> := [10, 0, 0, 0];
    NetIsRange(a, net, Dotted(10, 0, 0, 0), 8, 16777216, 10);
  }

  lemma SharedRange(a: seq<Octet>)
    requires |a| == 4
    ensures PrefixMatch(a, [100, 64, 0, 0], 10) <==> Dotted(100, 64, 0, 0) <= BigEndian(a) < Dotted(100, 128, 0, 0)
  {
    NetBytes();
    PowersOf2();
    hide PrefixMatch, BigEndian, Num, Pow2;
    var net: seq<Octet> := [100, 64, 0, 0];
    assert Dotted(100, 64, 0, 0) == 401 * 4194304;
    NetIsRange(a, net, Dotted(100, 64, 0, 0), 10, 4194304, 401);
  }

  lemma Ranges2(a: seq<Octet>)
    requires |a| == 4
    ensures PrefixMatch(a, [127, 0, 0, 0], 8) <==> Dotted(127, 0, 0, 0) <= BigEndian(a) < Dotted(128, 0, 0, 0)
    ensures PrefixMatch(a, [169, 254, 0, 0], 16) <==> Dotted(169, 254, 0, 0) <= BigEndian(a) < Dotted(169, 255, 0, 0)
    ensures PrefixMatch(a, [172, 16, 0, 0], 12) <==> Dotted(172, 16, 0, 0) <= BigEndian(a) < Dotted(172, 32, 0, 0)
  {
    NetBytes();
    PowersOf2();
    hide PrefixMatch, BigEndian, Num, Pow2;
    NetIsRange(a, [127, 0, 0, 0], Dotted(127, 0, 0, 0), 8, 16777216, 127);
    NetIsRange(a, [169, 254, 0, 0], Dotted(169, 254, 0, 0), 16, 65536, 43518);
    NetIsRange(a, [172, 16, 0, 0], Dotted(172, 16, 0, 0), 12, 1048576, 2753);
  }

  lemma Ranges3(a: seq<Octet>)
    requires |a| == 4
    ensures PrefixMatch(a, [192, 0, 0, 0], 24) <==> Dotted(192, 0, 0, 0) <= BigEndian(a) < Dotted(192, 0, 1, 0)
    ensures PrefixMatch(a, [192, 0, 2, 0], 24) <==> Dotted(192, 0, 2, 0) <= BigEndian(a) < Dotted(192, 0, 3, 0)
    ensures PrefixMatch(a, [192, 88, 99, 0], 24) <==> Dotted(192, 88, 99, 0) <= BigEndian(a) < Dotted(192, 88, 100, 0)
  {
    NetBytes();
    PowersOf2();
    hide PrefixMatch, BigEndian, Num, Pow2;
    NetIsRange(a, [192, 0, 0, 0], Dotted(192, 0, 0, 0), 24, 256, 12582912);
    NetIsRange(a, [192, 0, 2, 0], Dotted(192, 0, 2, 0), 24, 256, 12582914);
    NetIsRange(a, [192, 88, 99, 0], Dotted(192, 88, 99, 0), 24, 256, 12605539);
  }

  lemma Ranges4(a: seq<Octet>)
    requires |a| == 4
    ensures PrefixMatch(a, [192, 168, 0, 0], 16) <==> Dotted(192, 168, 0, 0) <= BigEndian(a) < Dotted(192, 169, 0, 0)
    ensures PrefixMatch(a, [198, 18, 0, 0], 15) <==> Dotted(198, 18, 0, 0) <= BigEndian(a) < Dotted(198, 20, 0, 0)
    ensures PrefixMatch(a, [198, 51, 100, 0], 24) <==> Dotted(198, 51, 100, 0) <= BigEndian(a) < Dotted(198, 51, 101, 0)
  {
    NetBytes();
    PowersOf2();
    hide PrefixMatch, BigEndian, Num, Pow2;
    NetIsRange(a, [192, 168, 0, 0], Dotted(192, 168, 0, 0), 16, 65536, 49320);
    NetIsRange(a, [198, 18, 0, 0], Dotted(198, 18, 0, 0), 15, 131072, 25353);
    NetIsRange(a, [198, 51, 100, 0], Dotted(198, 51, 100, 0), 24, 256, 12989284);
  }

  lemma Ranges5(a: seq<Octet>)
    requires |a| == 4
    ensures PrefixMatch(a, [203, 0, 113, 0], 24) <==> Dotted(203, 0, 113, 0) <= BigEndian(a) < Dotted(203, 0, 114, 0)
    ensures PrefixMatch(a, [224, 0, 0, 0], 4) <==> Dotted(224, 0, 0, 0) <= BigEndian(a) < Dotted(240, 0, 0, 0)
    ensures PrefixMatch(a, [240, 0, 0, 0], 4) <==> Dotted(240, 0, 0, 0) <= BigEndian(a) < Dotted(256, 0, 0, 0)
  {
    NetBytes();
    PowersOf2();
    hide PrefixMatch, BigEndian, Num, Pow2;
    NetIsRange(a, [203, 0, 113, 0], Dotted(203, 0, 113, 0), 24, 256, 13303921);
    NetIsRange(a, [224, 0, 0, 0], Dotted(224, 0, 0, 0), 4, 268435456, 14);
    NetIsRange(a, [240, 0, 0, 0], Dotted(240, 0, 0, 0), 4, 268435456, 15);
  }

  /** Internal is exactly this union of intervals. */
  lemma InternalIsRanges(a: seq<Octet>)
    requires |a| == 4
    ensures InternalV4(a) <==> InInternalRanges(BigEndian(a))
  {
    AnyNet(a);
    ThisNetworkRange(a);
    TenRange(a);
    SharedRange(a);
    Ranges2(a);
    Ranges3(a);
    Ranges4(a);
    Ranges5(a);
    FourBytes(a);
    hide InternalV4, PrefixMatch, BigEndian, Num;
  }

  // ── IPv6 ──

  const NAT64: seq<Octet> := [0x00, 0x64, 0xff, 0x9b, 0, 0, 0, 0, 0, 0, 0, 0]
  const MAPPED: seq<Octet> := [0, 0, 0, 0, 0, 0, 0, 0, 0, 0, 0xff, 0xff]

  function Padded(bytes: seq<Octet>): (r: seq<Octet>)
    requires |bytes| <= 16
    ensures |r| == 16
  {
    bytes + seq(16 - |bytes|, _ => 0)
  }

  const NETS_V6: seq<Net> := [
    Net(Padded([0x00]), 8), Net(Padded([0x01, 0x00]), 64), Net(Padded([0x20, 0x01, 0x0d, 0xb8]), 32),
      Net(Padded([0xfc]), 7),
    Net(Padded([0xfe, 0x80]), 10), Net(Padded([0xfe, 0xc0]), 10), Net(Padded([0xff]), 8)]

  lemma NetsV6Shape()
    ensures forall n :: n in NETS_V6 ==> |n.bytes| == 16 && n.prefix <= 128
  {
  }

  /** The IPv4 address an IPv6 address carries: NAT64 64:ff9b::/96 and 6to4 2002::/16. */
  function Embedded(a: seq<Octet>): (r: Option<seq<Octet>>)
    requires |a| == 16
    ensures r.Some? ==> |r.value| == 4
  {
    if a[..12] == NAT64 then Some(a[12..])
    else if a[0] == 0x20 && a[1] == 0x02 then Some(a[2..6])
    else None
  }

  predicate InternalV6(a: seq<Octet>)
    requires |a| == 16
  {
    if a[..12] == NAT64 then InternalV4(a[12..])
    else if a[0] == 0x20 && a[1] == 0x02 then InternalV4(a[2..6])
    else
      NetsV6Shape();
      exists n :: n in NETS_V6 && Matches(a, n)
  }

  /** One that carries an IPv4 address is judged as that address; any other by the networks' intervals. */
  lemma InternalV6IsRanges(a: seq<Octet>)
    requires |a| == 16
    ensures Embedded(a).Some? ==> (InternalV6(a) <==> InInternalRanges(BigEndian(Embedded(a).value)))
    ensures Embedded(a) == None ==>
      (InternalV6(a) <==>
       exists n :: n in NETS_V6 && |n.bytes| == 16 && n.prefix <= 128
                   && Network(a, n.prefix) == Network(n.bytes, n.prefix))
  {
    if Embedded(a).Some? {
      InternalIsRanges(Embedded(a).value);
    } else {
      NetsV6Shape();
      forall n | n in NETS_V6 ensures Matches(a, n) <==> Network(a, n.prefix) == Network(n.bytes, n.prefix) {
        PrefixIsDivision(a, n.bytes, n.prefix);
      }
      hide Network, PrefixMatch;
    }
  }

  /** Which they are: 64:ff9b::a.b.c.d, and those that begin with 2002 and the four bytes. */
  lemma CarriedIsRanges(a: seq<Octet>)
    requires |a| == 16
    ensures a[..12] == [0x00, 0x64, 0xff, 0x9b, 0, 0, 0, 0, 0, 0, 0, 0] ==>
      (InternalV6(a) <==> InInternalRanges(BigEndian(a[12..])))
    ensures a[0] == 0x20 && a[1] == 0x02 ==> (InternalV6(a) <==> InInternalRanges(BigEndian(a[2..6])))
  {
    hide InternalV4, InInternalRanges, BigEndian;
    InternalIsRanges(a[12..]);
    InternalIsRanges(a[2..6]);
    assert a[..12] == NAT64 ==> a[0] == 0x00;
  }

  /** Which addresses these networks hold, byte by byte. */
  lemma InternalV6Bytes(a: seq<Octet>)
    requires |a| == 16 && Embedded(a) == None
    ensures InternalV6(a) <==>
            || a[0] == 0
            || (a[0] == 0x01 && forall i :: 1 <= i < 8 ==> a[i] == 0)
            || (a[0] == 0x20 && a[1] == 0x01 && a[2] == 0x0d && a[3] == 0xb8)
            || a[0] == 0xfc || a[0] == 0xfd
            || (a[0] == 0xfe && a[1] >= 0x80)
            || a[0] == 0xff
  {
    hide PrefixMatch, InternalV6;
    AnyV6(a);
    ByteNets(a);
    DiscardNet(a);
    DocumentationNet(a);
    LocalNets(a);
  }

  lemma ByteNets(a: seq<Octet>)
    requires |a| == 16
    ensures PrefixMatch(a, Padded([0x00]), 8) <==> a[0] == 0
    ensures PrefixMatch(a, Padded([0xff]), 8) <==> a[0] == 0xff
  {
    assert a[..1] == [a[0]];
  }

  lemma DiscardNet(a: seq<Octet>)
    requires |a| == 16
    ensures PrefixMatch(a, Padded([0x01, 0x00]), 64) <==> a[0] == 0x01 && forall i :: 1 <= i < 8 ==> a[i] == 0
  {
    var net := Padded([0x01, 0x00]);
    assert a[..8] == net[..8] <==> forall i :: 0 <= i < 8 ==> a[i] == net[i];
  }

  lemma DocumentationNet(a: seq<Octet>)
    requires |a| == 16
    ensures PrefixMatch(a, Padded([0x20, 0x01, 0x0d, 0xb8]), 32) <==>
            a[0] == 0x20 && a[1] == 0x01 && a[2] == 0x0d && a[3] == 0xb8
  {
    assert a[..4] == [a[0], a[1], a[2], a[3]];
    assert Padded([0x20, 0x01, 0x0d, 0xb8])[..4] == [0x20, 0x01, 0x0d, 0xb8];
  }

  lemma LocalNets(a: seq<Octet>)
    requires |a| == 16
    ensures PrefixMatch(a, Padded([0xfc]), 7) <==> a[0] == 0xfc || a[0] == 0xfd
    ensures PrefixMatch(a, Padded([0xfe, 0x80]), 10) || PrefixMatch(a, Padded([0xfe, 0xc0]), 10) <==>
            a[0] == 0xfe && a[1] >= 0x80
  {
    Masks(a[0]);
    Masks(0xfc);
    Masks(a[1]);
    Masks(0x80);
    Masks(0xc0);
    hide Masked;
    TopBits(a[0], a[1]);
    assert a[..1] == [a[0]] && a[..0] == [];
  }

  lemma TopBits(x: Octet, y: Octet)
    ensures x & 0xfe == 0xfc <==> x == 0xfc || x == 0xfd
    ensures y & 0xc0 == 0x80 || y & 0xc0 == 0xc0 <==> y >= 0x80
  {
  }

  lemma AnyV6(a: seq<Octet>)
    requires |a| == 16 && Embedded(a) == None
    ensures InternalV6(a) <==>
            || PrefixMatch(a, Padded([0x00]), 8) || PrefixMatch(a, Padded([0x01, 0x00]), 64)
            || PrefixMatch(a, Padded([0x20, 0x01, 0x0d, 0xb8]), 32) || PrefixMatch(a, Padded([0xfc]), 7)
            || PrefixMatch(a, Padded([0xfe, 0x80]), 10) || PrefixMatch(a, Padded([0xfe, 0xc0]), 10)
            || PrefixMatch(a, Padded([0xff]), 8)
  {
    hide PrefixMatch;
    NetsV6Shape();
    V6At(a, 0);
    V6At(a, 1);
    V6At(a, 2);
    V6At(a, 3);
    V6At(a, 4);
    V6At(a, 5);
    V6At(a, 6);
    if InternalV6(a) {
      var n :| n in NETS_V6 && Matches(a, n);
      var i :| 0 <= i < |NETS_V6| && NETS_V6[i] == n;
      assert i == 0 || i == 1 || i == 2 || i == 3 || i == 4 || i == 5 || i == 6;
    }
  }

  lemma V6At(a: seq<Octet>, i: nat)
    requires |a| == 16 && Embedded(a) == None && i < |NETS_V6|
    ensures |NETS_V6[i].bytes| == 16 && NETS_V6[i].prefix <= 128
    ensures PrefixMatch(a, NETS_V6[i].bytes, NETS_V6[i].prefix) ==> InternalV6(a)
  {
    hide PrefixMatch, Padded;
    NetsV6Shape();
    assert NETS_V6[i] in NETS_V6;
    if PrefixMatch(a, NETS_V6[i].bytes, NETS_V6[i].prefix) {
      assert Matches(a, NETS_V6[i]);
    }
  }

  // ─── Dialled addresses ─────────────────────────────────────────────────────

  datatype SockAddr = Inet(bytes: seq<Octet>, port: nat) | Inet6(bytes: seq<Octet>, port: nat) | OtherFamily

  predicate WellFormed(sa: SockAddr) {
    (sa.Inet? ==> |sa.bytes| == 4) && (sa.Inet6? ==> |sa.bytes| == 16)
  }

  /** An address as dialled; ::ffff:a.b.c.d is the IPv4 peer it names. */
  datatype Addr = Addr(v4: bool, bytes: seq<Octet>, port: nat)

  function ToAddr(sa: SockAddr): (r: Option<Addr>)
    requires WellFormed(sa)
    ensures r == None <==> sa.OtherFamily?
    ensures r.Some? ==> |r.value.bytes| == if r.value.v4 then 4 else 16
  {
    match sa
    case Inet(bytes, port) => Some(Addr(true, bytes, port))
    case Inet6(bytes, port) => Some(if bytes[..12] == MAPPED then Addr(true, bytes[12..], port)
                                    else Addr(false, bytes, port))
    case OtherFamily => None
  }

  predicate Internal(a: Addr)
    requires |a.bytes| == if a.v4 then 4 else 16
  {
    if a.v4 then InternalV4(a.bytes) else InternalV6(a.bytes)
  }

  datatype Rule = Rule(host: string, net: seq<Octet>, prefix: nat, v4: bool, port: nat)

  /** What parse() leaves: a name, or a network with a prefix within its width. */
  predicate RuleOk(r: Rule) {
    r.host == "" ==> |r.net| == (if r.v4 then 4 else 16) && r.prefix <= 8 * |r.net|
  }

  function StripBrackets(h: string): string {
    if |h| >= 2 && h[0] == '[' && h[|h| - 1] == ']' then h[1..|h| - 1] else h
  }

  /** The rule lets this address through, asked for under this host name. */
  predicate Admits(r: Rule, a: Addr, host: string)
    requires RuleOk(r) && |a.bytes| == if a.v4 then 4 else 16
  {
    && (r.port == 0 || r.port == a.port)
    && (if r.host != "" then r.host == host else r.v4 == a.v4 && PrefixMatch(a.bytes, r.net, r.prefix))
  }

  predicate RulesOk(allow: seq<Rule>) {
    forall r :: r in allow ==> RuleOk(r)
  }

  /** The connection may go ahead. */
  predicate Permitted(denyInternal: bool, allow: seq<Rule>, sa: SockAddr, host: string)
    requires WellFormed(sa) && RulesOk(allow)
  {
    || !denyInternal
    || (ToAddr(sa).Some? && (!Internal(ToAddr(sa).value)
        || exists r :: r in allow && Admits(r, ToAddr(sa).value, Lower(StripBrackets(host)))))
  }

  class FetchAddressPolicy {
    const denyInternal: bool
    const allow: seq<Rule>

    constructor (denyInternal: bool, allow: seq<Rule>)
      ensures this.denyInternal == denyInternal && this.allow == allow
    {
      this.denyInternal, this.allow := denyInternal, allow;
    }

    /** The rules in order, the first that admits the address. */
    method Check(sa: SockAddr, urlHost: string) returns (ok: bool)
      requires WellFormed(sa) && RulesOk(allow)
      ensures ok == Permitted(denyInternal, allow, sa, urlHost)
    {
      hide InternalV4, InternalV6, PrefixMatch, Lower;
      if !denyInternal { return true; }
      var to := ToAddr(sa);
      if to == None { return false; }
      var a := to.value;
      if !Internal(a) { return true; }
      var host := Lower(StripBrackets(urlHost));
      var i := 0;
      while i < |allow|
        invariant i <= |allow| && forall k :: 0 <= k < i ==> !Admits(allow[k], a, host)
      {
        var r := allow[i];
        assert r in allow;
        i := i + 1;
        if r.port != 0 && r.port != a.port { continue; }
        if r.host != "" {
          if r.host == host { return true; }
        } else if r.v4 == a.v4 && PrefixMatch(a.bytes, r.net, r.prefix) {
          return true;
        }
      }
      return false;
    }
  }

  /**
   * What a rule admits: its port, or any; under its name, or within its network, the addresses of its family with the
   * same first bits as a number.
   */
  lemma AdmitsMeans(r: Rule, a: Addr, host: string)
    requires RuleOk(r) && |a.bytes| == if a.v4 then 4 else 16
    ensures r.port != 0 && r.port != a.port ==> !Admits(r, a, host)
    ensures r.port == 0 || r.port == a.port ==>
      (Admits(r, a, host) <==>
       if r.host != "" then r.host == host
       else |r.net| == |a.bytes| && Network(a.bytes, r.prefix) == Network(r.net, r.prefix))
  {
    if r.host == "" && r.v4 == a.v4 {
      PrefixIsDivision(a.bytes, r.net, r.prefix);
    }
    hide Network, PrefixMatch;
  }

  /** The shortest network is a whole family, the longest one address. */
  lemma AdmitsExtremes(r: Rule, a: Addr, host: string)
    requires RuleOk(r) && |a.bytes| == (if a.v4 then 4 else 16) && r.host == "" && r.port == 0
    ensures r.prefix == 0 ==> (Admits(r, a, host) <==> r.v4 == a.v4)
    ensures r.prefix == 8 * |r.net| ==> (Admits(r, a, host) <==> r.net == a.bytes)
  {
    assert a.bytes[..|a.bytes|] == a.bytes && r.net[..|r.net|] == r.net;
  }

  /** A rule more, wherever it stands, refuses nothing that was let through. */
  lemma MoreRulesRefuseNoMore(denyInternal: bool, allow: seq<Rule>, i: nat, r: Rule, sa: SockAddr, host: string)
    requires WellFormed(sa) && RulesOk(allow) && RuleOk(r) && i <= |allow|
    ensures RulesOk(allow[..i] + [r] + allow[i..])
    ensures Permitted(denyInternal, allow, sa, host) ==>
      Permitted(denyInternal, allow[..i] + [r] + allow[i..], sa, host)
  {
    hide InternalV4, InternalV6, PrefixMatch, Lower;
    var more := allow[..i] + [r] + allow[i..];
    assert allow == allow[..i] + allow[i..];
    assert forall s :: s in allow ==> s in more;
  }

  /** The host of the URL may stand in brackets, and in any case of letters. */
  lemma HostForms(denyInternal: bool, allow: seq<Rule>, sa: SockAddr, host: string, other: string)
    requires WellFormed(sa) && RulesOk(allow)
    ensures !(|host| >= 2 && host[0] == '[' && host[|host| - 1] == ']') ==>
      Permitted(denyInternal, allow, sa, "[" + host + "]") == Permitted(denyInternal, allow, sa, host)
    ensures Lower(host) == Lower(other) ==>
      Permitted(denyInternal, allow, sa, host) == Permitted(denyInternal, allow, sa, other)
  {
    hide InternalV4, InternalV6, PrefixMatch, Admits;
    assert ("[" + host + "]")[1..|host| + 1] == host;
    if Lower(host) == Lower(other) {
      SameStripped(host, other);
    }
  }

  lemma SameStripped(host: string, other: string)
    requires Lower(host) == Lower(other)
    ensures Lower(StripBrackets(host)) == Lower(StripBrackets(other))
  {
    assert |host| == |other| && forall i :: 0 <= i < |host| ==> Lower(host)[i] == Lower(other)[i];
    assert forall i :: 0 <= i < |host| ==> LowerChar(host[i]) == LowerChar(other[i]);
  }

  /** An IPv4 address written as ::ffff:a.b.c.d is judged, and admitted, as the IPv4 address. */
  lemma MappedIsTheSame(denyInternal: bool, allow: seq<Rule>, bytes: seq<Octet>, port: nat, host: string)
    requires |bytes| == 4 && RulesOk(allow)
    ensures |MAPPED + bytes| == 16
    ensures Permitted(denyInternal, allow, Inet6(MAPPED + bytes, port), host)
            == Permitted(denyInternal, allow, Inet(bytes, port), host)
  {
    assert (MAPPED + bytes)[..12] == MAPPED && (MAPPED + bytes)[12..] == bytes;
  }
}
