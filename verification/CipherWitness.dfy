/** One cipher and coder that satisfy every law asked of them: the laws do not contradict each other. */
module CipherWitness {
  import opened Options
  import opened Bytes
  import opened SecretBox
  import Utf8

  /** A character in four octets, the first of them 1. */
  function CharCode(c: char): (s: seq<Byte>)
    ensures |s| == 4 && s[0] == 1
  {
    [1] + BigEndian(c as int, 3)
  }

  /** A text that says where it ends: no code is the start of another. */
  function TextCode(s: string): seq<Byte> {
    if s == [] then [0] else CharCode(s[0]) + TextCode(s[1..])
  }

  lemma CharCodeInjective(a: char, b: char)
    requires CharCode(a) == CharCode(b)
    ensures a == b
  {
    hide BigEndian;
    assert CharCode(a)[1..] == BigEndian(a as int, 3) && CharCode(b)[1..] == BigEndian(b as int, 3);
    FitsThree(a);
    FitsThree(b);
  }

  lemma FitsThree(c: char)
    ensures FromBigEndian(BigEndian(c as int, 3)) == c as int
  {
    hide BigEndian, FromBigEndian;
    assert Pow256(3) == 256 * Pow256(2) == 256 * 256 * Pow256(1) == 0x100_0000;
    BigEndianRoundTrip(c as int, 3);
  }

  lemma CutAt(a: seq<Byte>, b: seq<Byte>, x: seq<Byte>, y: seq<Byte>)
    requires |a| == |b| && a + x == b + y
    ensures a == b && x == y
  {
    assert a == (a + x)[..|a|] && b == (b + y)[..|a|] && x == (a + x)[|a|..] && y == (b + y)[|a|..];
  }

  lemma Regroup(a: seq<Byte>, b: seq<Byte>, c: seq<Byte>)
    ensures a + b + c == a + (b + c)
  {
  }

  lemma {:induction false} FirstOctet(s: string, x: seq<Byte>)
    ensures (TextCode(s) + x)[0] == if s == [] then 0 else 1
  {
  }

  lemma {:induction false} TextCodeEnds(a: string, b: string, x: seq<Byte>, y: seq<Byte>)
    requires TextCode(a) + x == TextCode(b) + y
    ensures a == b && x == y
    decreases |a|
  {
    hide CharCode;
    FirstOctet(a, x);
    FirstOctet(b, y);
    if a == [] {
      CutAt([0], [0], x, y);
    } else {
      var ra, rb := TextCode(a[1..]), TextCode(b[1..]);
      Regroup(CharCode(a[0]), ra, x);
      Regroup(CharCode(b[0]), rb, y);
      CutAt(CharCode(a[0]), CharCode(b[0]), ra + x, rb + y);
      CharCodeInjective(a[0], b[0]);
      TextCodeEnds(a[1..], b[1..], x, y);
      assert a == [a[0]] + a[1..] && b == [b[0]] + b[1..];
    }
  }

  function AadCode(aad: Aad): seq<Byte> {
    TextCode(aad.header) + TextCode(aad.context)
  }

  lemma AadCodeEnds(a: Aad, b: Aad, x: seq<Byte>, y: seq<Byte>)
    requires AadCode(a) + x == AadCode(b) + y
    ensures a == b && x == y
  {
    hide TextCode;
    var ca, cb := TextCode(a.context), TextCode(b.context);
    Regroup(TextCode(a.header), ca, x);
    Regroup(TextCode(b.header), cb, y);
    TextCodeEnds(a.header, b.header, ca + x, cb + y);
    TextCodeEnds(a.context, b.context, x, y);
  }

  const ZERO_TAG: seq<Byte> := [0, 0, 0, 0, 0, 0, 0, 0, 0, 0, 0, 0, 0, 0, 0, 0]

  /** Hides nothing: the context and the text in the clear, with a constant tag. */
  function ToySeal(key: seq<Byte>, iv: seq<Byte>, aad: Aad, text: seq<Byte>): Sealed {
    Sealed(ZERO_TAG, AadCode(aad) + text)
  }

  function ToyOpen(key: seq<Byte>, iv: seq<Byte>, aad: Aad, data: seq<Byte>): Option<seq<Byte>> {
    var code := AadCode(aad);
    if |data| >= |code| + TAG_LEN && data[..|code|] == code && data[|data| - TAG_LEN..] == ZERO_TAG then Some(data[|code|..|data| - TAG_LEN]) else None
  }

  function Letter(n: nat): char
    requires n < 16
  {
    "abcdefghijklmnop"[n]
  }

  function ToyEncode(b: seq<Byte>): (s: string)
    ensures |s| == 2 * |b|
  {
    if b == [] then [] else [Letter(b[0] / 16), Letter(b[0] % 16)] + ToyEncode(b[1..])
  }

  predicate Encodes(b: seq<Byte>, s: string) {
    ToyEncode(b) == s
  }

  ghost function ToyDecode(s: string): Option<seq<Byte>> {
    if exists b :: Encodes(b, s) then var b :| Encodes(b, s); Some(b) else None
  }

  predicate Spells(s: string, b: seq<Byte>) {
    Utf8.Encode(s) == b
  }

  ghost function ToyText(b: seq<Byte>): Option<string> {
    if exists s :: Spells(s, b) then var s :| Spells(s, b); Some(s) else None
  }

  lemma {:induction false} ToyEncodeInjective(a: seq<Byte>, b: seq<Byte>)
    requires ToyEncode(a) == ToyEncode(b)
    ensures a == b
    decreases |a|
  {
    hide Letter;
    if a != [] {
      ToyEncodeHead(a);
      ToyEncodeHead(b);
      SameLetters(a[0], b[0]);
      ToyEncodeInjective(a[1..], b[1..]);
      assert a == [a[0]] + a[1..] && b == [b[0]] + b[1..];
    }
  }

  lemma {:induction false} ToyEncodeHead(a: seq<Byte>)
    requires a != []
    ensures ToyEncode(a)[0] == Letter(a[0] / 16) && ToyEncode(a)[1] == Letter(a[0] % 16) && ToyEncode(a)[2..] == ToyEncode(a[1..])
  {
    hide Letter;
  }

  lemma SameLetters(a: Byte, b: Byte)
    requires Letter(a / 16) == Letter(b / 16) && Letter(a % 16) == Letter(b % 16)
    ensures a == b
  {
    hide Letter;
    LetterInjective(a / 16, b / 16);
    LetterInjective(a % 16, b % 16);
  }

  lemma LetterInjective(m: nat, n: nat)
    requires m < 16 && n < 16
    ensures Letter(m) == Letter(n) ==> m == n
    ensures UrlSafeChar(Letter(m))
  {
  }

  lemma {:induction false} ToyEncodeSafe(b: seq<Byte>)
    ensures UrlSafe(ToyEncode(b))
  {
    if b != [] {
      ToyEncodeSafe(b[1..]);
      LetterInjective(b[0] / 16, 0);
      LetterInjective(b[0] % 16, 0);
    }
  }

  ghost function Toy(): Crypto {
    Crypto(ToySeal, ToyOpen, ToyEncode, (s: string) => ToyDecode(s), (b: seq<Byte>) => ToyText(b))
  }

  lemma ToyOpens(key: seq<Byte>, iv: seq<Byte>, aad: Aad, text: seq<Byte>)
    ensures var s := ToySeal(key, iv, aad, text); |s.tag| == TAG_LEN && ToyOpen(key, iv, aad, s.body + s.tag) == Some(text)
  {
    hide AadCode;
    var code := AadCode(aad);
    var data := code + text + ZERO_TAG;
    assert data[..|code|] == code && data[|data| - TAG_LEN..] == ZERO_TAG && data[|code|..|data| - TAG_LEN] == text;
  }

  lemma ToyBinds(key: seq<Byte>, iv: seq<Byte>, a: Aad, b: Aad, data: seq<Byte>)
    requires ToyOpen(key, iv, a, data).Some? && ToyOpen(key, iv, b, data).Some?
    ensures a == b
  {
    hide AadCode;
    var x, y := data[|AadCode(a)|..], data[|AadCode(b)|..];
    assert data == AadCode(a) + x && data == AadCode(b) + y;
    AadCodeEnds(a, b, x, y);
  }

  lemma {:induction false} ToyDecodes(b: seq<Byte>)
    ensures ToyDecode(ToyEncode(b)) == Some(b)
  {
    assert Encodes(b, ToyEncode(b));
    forall a | Encodes(a, ToyEncode(b))
      ensures a == b
    {
      ToyEncodeInjective(a, b);
    }
  }

  lemma {:induction false} TextIsRead(s: string)
    ensures ToyText(Utf8.Encode(s)) == Some(s)
  {
    assert Spells(s, Utf8.Encode(s));
    forall a | Spells(a, Utf8.Encode(s))
      ensures a == s
    {
      Utf8.EncodeInjective(a, s);
    }
  }

  /** The laws have a model. */
  lemma LawsHaveAModel()
    ensures Lawful(Toy()) && Binding(Toy())
  {
    hide ToySeal, ToyOpen, ToyEncode, ToyDecode, ToyText, Utf8.Encode, UrlSafe;
    var c := Toy();
    forall key, iv, aad, text
      ensures |c.aeadSeal(key, iv, aad, text).tag| == TAG_LEN
      ensures var s := c.aeadSeal(key, iv, aad, text); c.aeadOpen(key, iv, aad, s.body + s.tag) == Some(text)
    {
      ToyOpens(key, iv, aad, text);
    }
    forall key, iv, aad, aad', data | c.aeadOpen(key, iv, aad, data).Some? && c.aeadOpen(key, iv, aad', data).Some?
      ensures aad == aad'
    {
      ToyBinds(key, iv, aad, aad', data);
    }
    forall b
      ensures c.decode(c.encode(b)) == Some(b) && UrlSafe(c.encode(b)) && (b != [] ==> c.encode(b) != [])
    {
      ToyDecodes(b);
      ToyEncodeSafe(b);
    }
    forall s
      ensures c.utf8(Utf8.Encode(s)) == Some(s)
    {
      TextIsRead(s);
    }
  }
}
