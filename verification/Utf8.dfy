/** UTF-8, the byte form of every Rust string. */
module Utf8 {
  import opened Bytes
  import Text

  function EncodeChar(c: char): (s: seq<Byte>)
    ensures 1 <= |s| <= 4
  {
    var n := c as int;
    if n < 0x80 then [n]
    else if n < 0x800 then [0xC0 + n / 64, 0x80 + n % 64]
    else if n < 0x1_0000 then [0xE0 + n / 64 / 64, 0x80 + n / 64 % 64, 0x80 + n % 64]
    else [0xF0 + n / 64 / 64 / 64, 0x80 + n / 64 / 64 % 64, 0x80 + n / 64 % 64, 0x80 + n % 64]
  }

  function Encode(s: string): (b: seq<Byte>)
    ensures |b| >= |s|
  {
    if s == [] then [] else EncodeChar(s[0]) + Encode(s[1..])
  }

  predicate IsContinuation(b: Byte) {
    0x80 <= b < 0xC0
  }

  /** The code a byte sequence stands for, by section 3 of RFC 3629: the payload bits of its octets, first octet first. */
  ghost function CodeOf(b: seq<Byte>): int
    requires 1 <= |b| <= 4
  {
    match |b|
    case 1 => b[0]
    case 2 => (b[0] as int - 0xC0) * 0x40 + (b[1] as int - 0x80)
    case 3 => (b[0] as int - 0xE0) * 0x1000 + (b[1] as int - 0x80) * 0x40 + (b[2] as int - 0x80)
    case _ => (b[0] as int - 0xF0) * 0x4_0000 + (b[1] as int - 0x80) * 0x1000 + (b[2] as int - 0x80) * 0x40 + (b[3] as int - 0x80)
  }

  /** Every character is encoded by the octets that stand for it, with the first octet of that length, and as shortly as possible. */
  lemma EncodeCharIs(c: char)
    ensures var b, n := EncodeChar(c), c as int;
            && CodeOf(b) == n
            && |b| == (if n < 0x80 then 1 else if n < 0x800 then 2 else if n < 0x1_0000 then 3 else 4)
            && (|b| == 1 ==> b[0] < 0x80) && (|b| == 2 ==> 0xC0 <= b[0] < 0xE0) && (|b| == 3 ==> 0xE0 <= b[0] < 0xF0) && (|b| == 4 ==> 0xF0 <= b[0] < 0xF8)
  {
    Digits(c as int);
  }

  /** A character starts with a byte that is not a continuation byte and every later byte is one. */
  lemma CharShape(c: char)
    ensures !IsContinuation(EncodeChar(c)[0])
    ensures forall i | 0 < i < |EncodeChar(c)| :: IsContinuation(EncodeChar(c)[i])
  {
  }

  /** The characters of the seven-bit range stand for themselves; no other character contains such a byte. */
  lemma AsciiByte(c: char, b: Byte)
    requires b < 0x80
    ensures b in EncodeChar(c) <==> c as int == b
  {
  }

  lemma {:induction false} AsciiIn(s: string, c: char)
    requires c as int < 0x80
    ensures c as int in Encode(s) <==> c in s
  {
    if s != [] {
      AsciiIn(s[1..], c);
      AsciiByte(s[0], c as int);
    }
  }

  lemma {:induction false} EncodeConcat(a: string, b: string)
    ensures Encode(a + b) == Encode(a) + Encode(b)
  {
    if a == [] {
      assert a + b == b;
    } else {
      EncodeConcat(a[1..], b);
      assert (a + b)[1..] == a[1..] + b && (a + b)[0] == a[0];
      Text.Associate(EncodeChar(a[0]), Encode(a[1..]), Encode(b));
    }
  }

  /** No character's encoding is the start of another's. */
  lemma PrefixFree(a: char, b: char, x: seq<Byte>, y: seq<Byte>)
    requires EncodeChar(a) + x == EncodeChar(b) + y
    ensures a == b && x == y
  {
    var p, q := EncodeChar(a), EncodeChar(b);
    assert (p + x)[0] == p[0] && (q + y)[0] == q[0];
    assert |p| == |q|;
    assert p == (p + x)[..|p|] && q == (q + y)[..|q|];
    assert x == (p + x)[|p|..] && y == (q + y)[|q|..];
    SameCode(a, b);
  }

  lemma SameCode(a: char, b: char)
    requires EncodeChar(a) == EncodeChar(b)
    ensures a == b
  {
    var p, q := EncodeChar(a), EncodeChar(b);
    assert |p| == |q| && forall i | 0 <= i < |p| :: p[i] == q[i];
    Digits(a as int);
    Digits(b as int);
    assert p[0] == q[0];
    if |p| == 2 {
      assert p[1] == q[1];
    } else if |p| == 3 {
      assert p[1] == q[1] && p[2] == q[2];
    } else if |p| == 4 {
      assert p[1] == q[1] && p[2] == q[2] && p[3] == q[3];
    }
  }

  /** The six-bit digits of a code point give it back. */
  lemma Digits(n: nat)
    ensures n == 64 * (n / 64) + n % 64
    ensures n / 64 == 64 * (n / 64 / 64) + n / 64 % 64
    ensures n / 64 / 64 == 64 * (n / 64 / 64 / 64) + n / 64 / 64 % 64
  {
  }

  /** Distinct strings have distinct bytes. */
  lemma {:induction false} EncodeInjective(a: string, b: string)
    requires Encode(a) == Encode(b)
    ensures a == b
  {
    if a != [] && b != [] {
      PrefixFree(a[0], b[0], Encode(a[1..]), Encode(b[1..]));
      EncodeInjective(a[1..], b[1..]);
      assert a == [a[0]] + a[1..] && b == [b[0]] + b[1..];
    }
  }
}
