/** 128-bit identities: their order is numeric, their text has one printed form and several accepted ones. */
module Uuids {
  import opened Options

  type Uuid = n: nat | n < 0x1_0000_0000_0000_0000_0000_0000_0000_0000

  function Pow16(k: nat): (p: nat)
    ensures p >= 1
  {
    if k == 0 then 1 else 16 * Pow16(k - 1)
  }

  lemma Pow16Of32()
    ensures Pow16(32) == 0x1_0000_0000_0000_0000_0000_0000_0000_0000
  {
    assert Pow16(4) == 16 * Pow16(3) == 16 * 16 * Pow16(2) == 0x1_0000;
    assert Pow16(8) == 16 * Pow16(7) == 16 * 16 * Pow16(6) == 16 * 16 * 16 * Pow16(5) == 0x1_0000_0000;
    assert Pow16(12) == 16 * Pow16(11) == 16 * 16 * Pow16(10) == 16 * 16 * 16 * Pow16(9);
    assert Pow16(16) == 16 * Pow16(15) == 16 * 16 * Pow16(14) == 16 * 16 * 16 * Pow16(13);
    assert Pow16(20) == 16 * Pow16(19) == 16 * 16 * Pow16(18) == 16 * 16 * 16 * Pow16(17);
    assert Pow16(24) == 16 * Pow16(23) == 16 * 16 * Pow16(22) == 16 * 16 * 16 * Pow16(21);
    assert Pow16(28) == 16 * Pow16(27) == 16 * 16 * Pow16(26) == 16 * 16 * 16 * Pow16(25);
    assert Pow16(32) == 16 * Pow16(31) == 16 * 16 * Pow16(30) == 16 * 16 * 16 * Pow16(29);
  }

  function HexDigit(d: nat): char
    requires d < 16
  {
    "0123456789abcdef"[d]
  }

  function HexValue(c: char): Option<nat> {
    if '0' <= c <= '9' then Some(c as int - '0' as int)
    else if 'a' <= c <= 'f' then Some(c as int - 'a' as int + 10)
    else if 'A' <= c <= 'F' then Some(c as int - 'A' as int + 10)
    else None
  }

  lemma DigitRoundTrip(d: nat)
    requires d < 16
    ensures HexValue(HexDigit(d)) == Some(d)
    ensures HexDigit(d) != '-' && HexDigit(d) != '.'
  {
  }

  /** `k` lower-case hexadecimal digits, most significant first. */
  function Hex(n: nat, k: nat): (s: string)
    ensures |s| == k
    decreases k
  {
    if k == 0 then [] else Hex(n / 16, k - 1) + [HexDigit(n % 16)]
  }

  function UnHex(s: string): (r: Option<nat>)
    ensures r.Some? ==> r.value < Pow16(|s|)
  {
    if s == [] then Some(0)
    else
      var high, low := UnHex(s[..|s| - 1]), HexValue(s[|s| - 1]);
      if high.Some? && low.Some? then Some(16 * high.value + low.value) else None
  }

  lemma {:induction false} HexRoundTrip(n: nat, k: nat)
    requires n < Pow16(k)
    ensures UnHex(Hex(n, k)) == Some(n)
    decreases k
  {
    if k > 0 {
      HexRoundTrip(n / 16, k - 1);
      DigitRoundTrip(n % 16);
      assert Hex(n, k)[..k - 1] == Hex(n / 16, k - 1);
    }
  }

  lemma {:induction false} HexHasNoMarks(n: nat, k: nat)
    ensures '-' !in Hex(n, k) && '.' !in Hex(n, k)
    decreases k
  {
    if k > 0 {
      HexHasNoMarks(n / 16, k - 1);
      DigitRoundTrip(n % 16);
    }
  }

  /** `id.simple()`: 32 digits, the label of a document path. */
  function Simple(u: Uuid): (s: string)
    ensures |s| == 32
  {
    Hex(u, 32)
  }

  lemma SimpleLabel(u: Uuid, v: Uuid)
    ensures '.' !in Simple(u)
    ensures Simple(u) == Simple(v) ==> u == v
  {
    Pow16Of32();
    HexHasNoMarks(u, 32);
    HexRoundTrip(u, 32);
    HexRoundTrip(v, 32);
  }

  function Hyphenate(s: string): (h: string)
    requires |s| == 32
    ensures |h| == 36
  {
    s[..8] + "-" + s[8..12] + "-" + s[12..16] + "-" + s[16..20] + "-" + s[20..]
  }

  /** `id.to_string()`. */
  function ToString(u: Uuid): (s: string)
    ensures |s| == 36
  {
    Hyphenate(Simple(u))
  }

  function ParseDigits(s: string): Option<Uuid>
    requires |s| == 32
  {
    Pow16Of32();
    match UnHex(s)
    case None => None
    case Some(n) => Some(n)
  }

  function ParseHyphenated(s: string): Option<Uuid>
    requires |s| == 36
  {
    if s[8] == '-' && s[13] == '-' && s[18] == '-' && s[23] == '-'
    then ParseDigits(s[..8] + s[9..13] + s[14..18] + s[19..23] + s[24..])
    else None
  }

  /** `Uuid::parse_str`: 32 digits, the hyphenated form, that form in braces, or as a URN; either letter case. */
  function Parse(s: string): Option<Uuid> {
    if |s| == 32 then ParseDigits(s)
    else if |s| == 36 then ParseHyphenated(s)
    else if |s| == 38 && s[0] == '{' && s[37] == '}' then ParseHyphenated(s[1..37])
    else if |s| == 45 && s[..9] == "urn:uuid:" then ParseHyphenated(s[9..])
    else None
  }

  /** Removing the hyphens gives the digits back, group by group. */
  lemma Groups(a: string, b: string, c: string, d: string, e: string)
    requires |a| == 8 && |b| == 4 && |c| == 4 && |d| == 4 && |e| == 12
    ensures var h := a + "-" + b + "-" + c + "-" + d + "-" + e;
            && |h| == 36 && h[8] == '-' && h[13] == '-' && h[18] == '-' && h[23] == '-'
            && h[..8] == a && h[9..13] == b && h[14..18] == c && h[19..23] == d && h[24..] == e
  {
  }

  lemma Regroup(s: string)
    requires |s| == 32
    ensures s[..8] + s[8..12] + s[12..16] + s[16..20] + s[20..] == s
  {
  }

  /** Every printed identity parses to itself, so printing is injective. */
  lemma ParseToString(u: Uuid)
    ensures Parse(ToString(u)) == Some(u)
    ensures Parse(Simple(u)) == Some(u)
  {
    Pow16Of32();
    HexRoundTrip(u, 32);
    var d := Simple(u);
    Groups(d[..8], d[8..12], d[12..16], d[16..20], d[20..]);
    Regroup(d);
  }

  // ---------------------------------------------------------------- the accepted spellings

  /** The digits in lower case are `digits`. */
  ghost predicate InLowerCase(s: string, digits: string) {
    |s| == |digits| && forall i | 0 <= i < |s| :: s[i] == digits[i] || ('A' <= s[i] <= 'F' && digits[i] as int == s[i] as int + 32)
  }

  lemma DigitIs(c: char, d: nat)
    requires d < 16
    ensures HexValue(c) == Some(d) <==> c == HexDigit(d) || ('A' <= c <= 'F' && HexDigit(d) as int == c as int + 32)
  {
  }

  /** Digits read as a number exactly when they are its printed digits, in either letter case. */
  lemma {:induction false} UnHexIs(s: string, n: nat)
    ensures UnHex(s) == Some(n) <==> n < Pow16(|s|) && InLowerCase(s, Hex(n, |s|))
    decreases |s|
  {
    hide InLowerCase, HexValue, HexDigit, UnHex;
    if s == [] {
      NoDigits(s, n);
    } else {
      var k := |s| - 1;
      var digits := Hex(n, |s|);
      UnHexIs(s[..k], n / 16);
      UnHexSnoc(s, n);
      DigitIs(s[k], n % 16);
      assert digits[..k] == Hex(n / 16, k) && digits[k] == HexDigit(n % 16);
      LowerSnoc(s, digits);
    }
  }

  lemma {:induction false} NoDigits(s: string, n: nat)
    requires s == []
    ensures UnHex(s) == Some(n) <==> n < Pow16(0) && InLowerCase(s, Hex(n, 0))
  {
  }

  lemma {:induction false} UnHexSnoc(s: string, n: nat)
    requires s != []
    ensures var k := |s| - 1; UnHex(s) == Some(n) <==> UnHex(s[..k]) == Some(n / 16) && HexValue(s[k]) == Some(n % 16)
  {
    hide Pow16;
    var v := HexValue(s[|s| - 1]);
    assert v.Some? ==> v.value < 16;
  }

  lemma LowerSnoc(s: string, digits: string)
    requires s != [] && |digits| == |s|
    ensures var n := |s| - 1; InLowerCase(s, digits) <==>
            InLowerCase(s[..n], digits[..n]) && (s[n] == digits[n] || ('A' <= s[n] <= 'F' && digits[n] as int == s[n] as int + 32))
  {
    var n := |s| - 1;
    assert forall i | 0 <= i < n :: s[..n][i] == s[i] && digits[..n][i] == digits[i];
  }

  /** Thirty-two digits of the identity, in either letter case. */
  ghost predicate DigitsOf(d: string, u: Uuid) {
    |d| == 32 && InLowerCase(d, Simple(u))
  }

  /** The four accepted forms: bare digits, hyphenated, in braces, as a URN. */
  ghost predicate Spelling(s: string, u: Uuid) {
    exists d :: DigitsOf(d, u) && (s == d || s == Hyphenate(d) || s == "{" + Hyphenate(d) + "}" || s == "urn:uuid:" + Hyphenate(d))
  }

  lemma DigitsAre(d: string, u: Uuid)
    requires |d| == 32
    ensures ParseDigits(d) == Some(u) <==> DigitsOf(d, u)
  {
    Pow16Of32();
    UnHexIs(d, u);
  }

  lemma HyphenatedIs(h: string, u: Uuid)
    requires |h| == 36
    ensures ParseHyphenated(h) == Some(u) <==> exists d :: DigitsOf(d, u) && h == Hyphenate(d)
  {
    hide InLowerCase, Simple, ParseDigits;
    if ParseHyphenated(h) == Some(u) {
      var d := h[..8] + h[9..13] + h[14..18] + h[19..23] + h[24..];
      DigitsAre(d, u);
      assert d[..8] == h[..8] && d[8..12] == h[9..13] && d[12..16] == h[14..18] && d[16..20] == h[19..23] && d[20..] == h[24..];
      assert h == Hyphenate(d);
    }
    if d :| DigitsOf(d, u) && h == Hyphenate(d) {
      DigitsAre(d, u);
      Groups(d[..8], d[8..12], d[12..16], d[16..20], d[20..]);
      Regroup(d);
    }
  }

  /** A text parses to an identity exactly when it is one of its accepted spellings. */
  lemma ParseIs(s: string, u: Uuid)
    ensures Parse(s) == Some(u) <==> Spelling(s, u)
  {
    hide InLowerCase, Simple, ParseDigits, ParseHyphenated, Hyphenate;
    if Parse(s) == Some(u) {
      SpelledOnce(s, u);
    }
    if d :| DigitsOf(d, u) && (s == d || s == Hyphenate(d) || s == "{" + Hyphenate(d) + "}" || s == "urn:uuid:" + Hyphenate(d)) {
      SpellingParses(s, d, u);
    }
  }

  lemma SpelledOnce(s: string, u: Uuid)
    requires Parse(s) == Some(u)
    ensures Spelling(s, u)
  {
    hide InLowerCase, Simple, ParseDigits, ParseHyphenated, Hyphenate;
    if |s| == 32 {
      DigitsAre(s, u);
    } else if |s| == 36 {
      HyphenatedIs(s, u);
    } else if |s| == 38 {
      HyphenatedIs(s[1..37], u);
      assert s == "{" + s[1..37] + "}";
    } else {
      HyphenatedIs(s[9..], u);
      assert s == "urn:uuid:" + s[9..];
    }
  }

  lemma SpellingParses(s: string, d: string, u: Uuid)
    requires |d| == 32 && DigitsOf(d, u) && (s == d || s == Hyphenate(d) || s == "{" + Hyphenate(d) + "}" || s == "urn:uuid:" + Hyphenate(d))
    ensures Parse(s) == Some(u)
  {
    hide InLowerCase, Simple, ParseDigits, ParseHyphenated, Hyphenate;
    var h := Hyphenate(d);
    DigitsAre(d, u);
    HyphenatedIs(h, u);
    if |s| == 38 {
      assert s[1..37] == h;
    } else if |s| == 45 {
      assert s[9..] == h && s[..9] == "urn:uuid:";
    }
  }
}
