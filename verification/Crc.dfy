/** CRC-32 (IEEE), fed chunk by chunk. */
module Crc {
  import opened Bytes

  const INITIAL: bv32 := 0xFFFF_FFFF

  /** One division step by the reversed polynomial. */
  function Bit(c: bv32): bv32 {
    if c & 1 == 1 then (c >> 1) ^ 0xEDB8_8320 else c >> 1
  }

  function Shift(c: bv32, n: nat): bv32
    decreases n
  {
    if n == 0 then c else Shift(Bit(c), n - 1)
  }

  function Step(c: bv32, b: Byte): bv32 {
    Shift(c ^ (b as bv32), 8)
  }

  /** `Crc::update`. */
  function Update(c: bv32, data: seq<Byte>): bv32
    decreases |data|
  {
    if data == [] then c else Update(Step(c, data[0]), data[1..])
  }

  /** `Crc::sum`. */
  function Sum(c: bv32): (n: nat)
    ensures n < 0x1_0000_0000
  {
    (c ^ 0xFFFF_FFFF) as nat
  }

  function Crc32(data: seq<Byte>): (n: nat)
    ensures n < 0x1_0000_0000
  {
    Sum(Update(INITIAL, data))
  }

  /** Feeding two chunks is feeding their concatenation. */
  lemma {:induction false} UpdateConcat(c: bv32, a: seq<Byte>, b: seq<Byte>)
    ensures Update(c, a + b) == Update(Update(c, a), b)
    decreases |a|
  {
    if a == [] {
      assert a + b == b;
    } else {
      assert (a + b)[1..] == a[1..] + b && (a + b)[0] == a[0];
      UpdateConcat(Step(c, a[0]), a[1..], b);
    }
  }

  lemma {:induction false} EightBits(c: bv32)
    ensures Shift(c, 8) == Bit(Bit(Bit(Bit(Bit(Bit(Bit(Bit(c))))))))
  {
    hide Bit;
    var d := Bit(Bit(Bit(Bit(c))));
    assert Shift(c, 8) == Shift(Bit(c), 7) == Shift(Bit(Bit(c)), 6) == Shift(Bit(Bit(Bit(c))), 5) == Shift(d, 4);
    assert Shift(d, 4) == Shift(Bit(d), 3) == Shift(Bit(Bit(d)), 2) == Shift(Bit(Bit(Bit(d))), 1) == Bit(Bit(Bit(Bit(d))));
  }

  /** Feeding one octet to a known register. */
  lemma Fed(c: bv32, b: Byte, mixed: bv32)
    requires mixed == c ^ (b as bv32)
    ensures Step(c, b) == Bit(Bit(Bit(Bit(Bit(Bit(Bit(Bit(mixed))))))))
  {
    hide Shift, Bit;
    EightBits(mixed);
  }

  lemma {:induction false} UpdateAt(c: bv32, data: seq<Byte>, k: nat)
    requires k <= |data|
    ensures Update(c, data[k..]) == if k == |data| then c else Update(Step(c, data[k]), data[k + 1..])
  {
    hide Step;
  }

  lemma DigitsFed()
    ensures Step(0xFFFF_FFFF, 0x31) == 0x7C23_1048
    ensures Step(0x7C23_1048, 0x32) == 0xB0AC_BB32
    ensures Step(0xB0AC_BB32, 0x33) == 0x77B7_9C2D
    ensures Step(0x77B7_9C2D, 0x34) == 0x641C_1F5C
    ensures Step(0x641C_1F5C, 0x35) == 0x340A_C5E3
    ensures Step(0x340A_C5E3, 0x36) == 0xF68D_2C9E
    ensures Step(0xF68D_2C9E, 0x37) == 0xAFFC_9660
    ensures Step(0xAFFC_9660, 0x38) == 0x651F_2550
    ensures Step(0x651F_2550, 0x39) == 0x340B_C6D9
  {
    hide Step;
    Fed(0xFFFF_FFFF, 0x31, 0xFFFF_FFCE);
    Fed(0x7C23_1048, 0x32, 0x7C23_107A);
    Fed(0xB0AC_BB32, 0x33, 0xB0AC_BB01);
    Fed(0x77B7_9C2D, 0x34, 0x77B7_9C19);
    Fed(0x641C_1F5C, 0x35, 0x641C_1F69);
    Fed(0x340A_C5E3, 0x36, 0x340A_C5D5);
    Fed(0xF68D_2C9E, 0x37, 0xF68D_2CA9);
    Fed(0xAFFC_9660, 0x38, 0xAFFC_9658);
    Fed(0x651F_2550, 0x39, 0x651F_2569);
  }

  /** The check value of CRC-32/ISO-HDLC: the sum of the digits one to nine. */
  lemma {:induction false} CheckValue()
    ensures Crc32([0x31, 0x32, 0x33, 0x34, 0x35, 0x36, 0x37, 0x38, 0x39]) == 0xCBF4_3926
  {
    hide Step, Update;
    var digits: seq<Byte> := [0x31, 0x32, 0x33, 0x34, 0x35, 0x36, 0x37, 0x38, 0x39];
    DigitsFed();
    assert digits[0..] == digits;
    UpdateAt(0xFFFF_FFFF, digits, 0);
    UpdateAt(0x7C23_1048, digits, 1);
    UpdateAt(0xB0AC_BB32, digits, 2);
    UpdateAt(0x77B7_9C2D, digits, 3);
    UpdateAt(0x641C_1F5C, digits, 4);
    UpdateAt(0x340A_C5E3, digits, 5);
    UpdateAt(0xF68D_2C9E, digits, 6);
    UpdateAt(0xAFFC_9660, digits, 7);
    UpdateAt(0x651F_2550, digits, 8);
    UpdateAt(0x340B_C6D9, digits, 9);
  }
}
