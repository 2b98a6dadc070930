/**
 * CRC-32 of PNG chunks.  The program runs on JavaScript numbers: bitwise operators convert to
 * 32 bits and give back a signed value, except `>>>`, which gives back an unsigned one.  The
 * table-driven loop is proved equal to the bit-by-bit polynomial division of section 3.4 of
 * RFC 2083.
 */
module Crc {
  import opened Bytes

  // ---------- The definition: polynomial division, one bit at a time ----------

  /** The generator polynomial without its x^32 term; the register is reflected, so bit i is the term x^(31-i). */
  function Polynomial(): Word {
    seq(32, i => 31 - i in {26, 23, 22, 16, 12, 11, 10, 8, 7, 5, 4, 2, 1, 0})
  }

  lemma LowHalf(p: Word)
    requires p == Polynomial()
    ensures FromBits(p) == 0x8320 + 0x1_0000 * FromBits(p[16..])
  {
    ByteValue(p);
    assert !p[0] && !p[1] && !p[2] && !p[3] && !p[4] && p[5] && !p[6] && !p[7];
    ByteValue(p[8..]);
    assert p[8] && p[9] && !p[10] && !p[11] && !p[12] && !p[13] && !p[14] && p[15];
    assert p[8..][8..] == p[16..];
  }

  lemma HighHalf(p: Word)
    requires p == Polynomial()
    ensures FromBits(p[16..]) == 0xedb8
  {
    var h := p[16..];
    ByteValue(h);
    assert !p[16] && !p[17] && !p[18] && p[19] && p[20] && p[21] && !p[22] && p[23];
    ByteValue(h[8..]);
    assert p[24] && !p[25] && p[26] && p[27] && !p[28] && p[29] && p[30] && p[31];
    assert h[8..][8..] == [];
  }

  /** As a number this is the constant in the program. */
  lemma PolynomialValue()
    ensures FromBits(Polynomial()) == 0xedb8_8320
  {
    LowHalf(Polynomial());
    HighHalf(Polynomial());
  }

  /** One division step of the reflected register. */
  function Step(c: Word): Word {
    if c[0] then Xor(Polynomial(), ShiftRight(c, 1)) else ShiftRight(c, 1)
  }

  /** Bring in data bits, one division step each. */
  function FeedBits(c: Word, bits: seq<bool>): Word
    decreases |bits|
  {
    if |bits| == 0 then c else FeedBits(Step(c[0 := c[0] != bits[0]]), bits[1..])
  }

  /** The bits of a byte come least significant first. */
  function FeedByte(c: Word, x: byte): Word {
    FeedBits(c, ToBits(x, 8))
  }

  function FeedBytes(c: Word, data: seq<byte>): Word {
    if |data| == 0 then c else FeedByte(FeedBytes(c, data[..|data| - 1]), data[|data| - 1])
  }

  function Ones(): Word { seq(32, i => true) }

  /** Register preset to ones, result complemented. */
  function Crc32(data: seq<byte>): nat {
    FromBits(Xor(FeedBytes(Ones(), data), Ones()))
  }

  // ---------- Algebra of the register ----------

  lemma StepLinear(a: Word, b: Word)
    ensures Step(Xor(a, b)) == Xor(Step(a), Step(b))
  {
    forall i | 0 <= i < 32 ensures Step(Xor(a, b))[i] == Xor(Step(a), Step(b))[i] {
    }
  }

  function Steps(c: Word, n: nat): Word
    decreases n
  {
    if n == 0 then c else Steps(Step(c), n - 1)
  }

  lemma {:induction false} StepsLinear(a: Word, b: Word, n: nat)
    ensures Steps(Xor(a, b), n) == Xor(Steps(a, n), Steps(b, n))
    decreases n
  {
    if n > 0 {
      StepLinear(a, b);
      StepsLinear(Step(a), Step(b), n - 1);
    }
  }

  /** One data bit at the register, the others still to come. */
  lemma FirstBit(c: Word, bits: seq<bool>)
    requires 0 < |bits| <= 32
    ensures Step(Xor(c, Pad(bits))) == Xor(Step(c[0 := c[0] != bits[0]]), Pad(bits[1..]))
  {
    var first := c[0 := c[0] != bits[0]];
    var rest := Pad(bits)[0 := false];
    assert Xor(c, Pad(bits)) == Xor(first, rest);
    StepLinear(first, rest);
    assert Step(rest) == Pad(bits[1..]);
  }

  /** The data bits may be brought in all at once. */
  lemma {:induction false} FeedAtOnce(c: Word, bits: seq<bool>)
    requires |bits| <= 32
    ensures FeedBits(c, bits) == Steps(Xor(c, Pad(bits)), |bits|)
    decreases |bits|
  {
    if |bits| == 0 {
      assert Xor(c, Pad(bits)) == c;
    } else {
      FirstBit(c, bits);
      FeedAtOnce(Step(c[0 := c[0] != bits[0]]), bits[1..]);
    }
  }

  /** Steps of a register whose low bits are clear only shift it. */
  lemma {:induction false} StepsShift(c: Word, n: nat)
    requires n <= 32 && forall i :: 0 <= i < n ==> !c[i]
    ensures Steps(c, n) == ShiftRight(c, n)
    decreases n
  {
    if n == 0 {
      assert ShiftRight(c, 0) == c;
    } else {
      assert Step(c) == ShiftRight(c, 1);
      StepsShift(ShiftRight(c, 1), n - 1);
      assert ShiftRight(ShiftRight(c, 1), n - 1) == ShiftRight(c, n);
    }
  }

  /** n steps: the n low bits decide a pattern, the rest is shifted. */
  lemma StepsSplit(c: Word, n: nat)
    requires n <= 32
    ensures Steps(c, n) == Xor(Steps(Low(c, n), n), ShiftRight(c, n))
  {
    var high: Word := Zeros(n) + c[n..];
    assert c == Xor(Low(c, n), high);
    StepsLinear(Low(c, n), high, n);
    StepsShift(high, n);
    assert ShiftRight(high, n) == ShiftRight(c, n);
  }

  /** What one table lookup does. */
  lemma LookupFeedsByte(c: Word, x: byte)
    ensures FeedByte(c, x) == Xor(Steps(Low(Xor(c, ByteWord(x)), 8), 8), ShiftRight(c, 8))
  {
    FeedByteSplit(c, x, ToBits(x, 8));
  }

  /** The bits of the byte decide a pattern, the rest of the register is shifted. */
  lemma FeedByteSplit(c: Word, x: byte, bits: seq<bool>)
    requires bits == ToBits(x, 8)
    ensures FeedBits(c, bits) == Xor(Steps(Low(Xor(c, Pad(bits)), |bits|), |bits|), ShiftRight(c, |bits|))
  {
    FeedAtOnce(c, bits);
    StepsSplit(Xor(c, Pad(bits)), |bits|);
    ShiftedByte(c, x);
  }

  /** A byte lies in the eight low bits. */
  lemma ShiftedByte(c: Word, x: byte)
    ensures ShiftRight(Xor(c, ByteWord(x)), 8) == ShiftRight(c, 8)
  {
    var mixed := Xor(c, ByteWord(x));
    forall i | 8 <= i < 32 ensures mixed[i] == c[i] {
      assert !ByteWord(x)[i];
    }
    assert mixed[8..] == c[8..];
  }

  // ---------- The program, on JavaScript numbers ----------

  /** What a bitwise operator produces: 32 bits, read as a signed or as an unsigned number. */
  datatype JsNumber = Int32(bits: Word) | Uint32(bits: Word) {
    function Value(): int {
      if Int32? && bits[31] then FromBits(bits) - 0x1_0000_0000 else FromBits(bits)
    }
  }

  function JsXor(x: JsNumber, y: JsNumber): JsNumber { Int32(Xor(x.bits, y.bits)) }

  /** `x & mask` for a mask of the n low bits. */
  function JsLow(x: JsNumber, n: nat): JsNumber
    requires n <= 32
  {
    Int32(Low(x.bits, n))
  }

  /** `x >>> n` */
  function JsShiftRight(x: JsNumber, n: nat): JsNumber
    requires n <= 32
  {
    Uint32(ShiftRight(x.bits, n))
  }

  function JsByte(x: byte): JsNumber { Int32(ByteWord(x)) }

  lemma LowValue(x: JsNumber, n: nat)
    requires n < 32
    ensures JsLow(x, n).Value() == FromBits(x.bits[..n])
  {
    PaddedValue(x.bits[..n], 32 - n);
  }

  /** One turn of the inner table loop. */
  function JsStep(c: JsNumber): JsNumber {
    if JsLow(c, 1).Value() != 0 then JsXor(Uint32(Polynomial()), JsShiftRight(c, 1)) else JsShiftRight(c, 1)
  }

  lemma JsStepBits(c: JsNumber)
    ensures JsStep(c).bits == Step(c.bits)
  {
    LowValue(c, 1);
    assert c.bits[..1] == [c.bits[0]];
    assert FromBits([c.bits[0]][1..]) == 0;
  }

  ghost predicate IsEntry(e: JsNumber, n: byte) {
    e.bits == Steps(ByteWord(n), 8)
  }

  ghost predicate IsCrcTable(table: seq<JsNumber>) {
    |table| == 256 && forall n: byte :: IsEntry(table[n], n)
  }

  method TableEntry(n: byte) returns (c: JsNumber)
    ensures IsEntry(c, n)
  {
    c := StepTimes(JsByte(n), 8);
  }

  /** The loop that makes one entry. */
  method StepTimes(start: JsNumber, times: nat) returns (c: JsNumber)
    ensures c.bits == Steps(start.bits, times)
  {
    c := start;
    var k := 0;
    while k < times
      invariant 0 <= k <= times
      invariant Steps(c.bits, times - k) == Steps(start.bits, times)
    {
      JsStepBits(c);
      c := JsStep(c);
      k := k + 1;
    }
  }

  method CrcTable() returns (table: seq<JsNumber>)
    ensures IsCrcTable(table)
  {
    var t := new JsNumber[256](i => Int32(Zeros(32)));
    var n := 0;
    while n < 256
      invariant 0 <= n <= 256
      invariant forall m: byte :: m < n ==> IsEntry(t[m], m)
    {
      var c := TableEntry(n);
      t[n] := Int32(c.bits); // an Int32Array keeps the 32 bits
      n := n + 1;
    }
    table := t[..];
  }

  /** The table-driven checksum equals the bit-by-bit one, as an unsigned number. */
  method ComputeCrc32(table: seq<JsNumber>, buf: seq<byte>) returns (crc: int)
    requires IsCrcTable(table)
    ensures crc == Crc32(buf)
  {
    var c := Int32(Ones());
    var i := 0;
    assert buf[..0] == [];
    while i < |buf|
      invariant 0 <= i <= |buf|
      invariant c.bits == FeedBytes(Ones(), buf[..i])
    {
      assert buf[..i + 1][..i] == buf[..i];
      LookupFeedsByte(c.bits, buf[i]);
      var index := LowByte(JsXor(c, JsByte(buf[i])).bits);
      assert IsEntry(table[index], index);
      c := JsXor(table[index], JsShiftRight(c, 8));
      i := i + 1;
    }
    assert buf[..|buf|] == buf;
    var flipped := JsXor(c, Int32(Ones()));
    assert ShiftRight(flipped.bits, 0) == flipped.bits;
    crc := JsShiftRight(flipped, 0).Value();
  }

  // ---------- What the checksum detects ----------

  /** The polynomial's top bit tells the two branches of a step apart. */
  lemma StepInjective(x: Word, y: Word)
    requires Step(x) == Step(y)
    ensures x == y
  {
    assert Polynomial()[31];
    assert ShiftRight(x, 1)[31] == false && ShiftRight(y, 1)[31] == false;
    assert Step(x)[31] == x[0] && Step(y)[31] == y[0];
    XorInjective(Polynomial(), ShiftRight(x, 1), ShiftRight(y, 1));
    forall i | 0 <= i < 32 ensures x[i] == y[i] {
      if i > 0 { assert ShiftRight(x, 1)[i - 1] == x[i] && ShiftRight(y, 1)[i - 1] == y[i]; }
    }
  }

  lemma {:induction false} StepsInjective(x: Word, y: Word, n: nat)
    requires Steps(x, n) == Steps(y, n)
    ensures x == y
    decreases n
  {
    if n > 0 {
      StepsInjective(Step(x), Step(y), n - 1);
      StepInjective(x, y);
    }
  }

  lemma FeedByteInjective(c: Word, x: byte, d: Word, y: byte)
    requires FeedByte(c, x) == FeedByte(d, y)
    ensures Xor(c, ByteWord(x)) == Xor(d, ByteWord(y))
  {
    FeedAtOnce(c, ToBits(x, 8));
    FeedAtOnce(d, ToBits(y, 8));
    StepsInjective(Xor(c, ByteWord(x)), Xor(d, ByteWord(y)), 8);
  }

  lemma {:induction false} FeedBytesInjective(c: Word, d: Word, data: seq<byte>)
    requires FeedBytes(c, data) == FeedBytes(d, data)
    ensures c == d
    decreases |data|
  {
    if |data| > 0 {
      var init := data[..|data| - 1];
      var last := data[|data| - 1];
      FeedByteInjective(FeedBytes(c, init), last, FeedBytes(d, init), last);
      XorInjective(ByteWord(last), FeedBytes(c, init), FeedBytes(d, init));
      FeedBytesInjective(c, d, init);
    }
  }

  lemma {:induction false} FeedBytesConcat(c: Word, a: seq<byte>, b: seq<byte>)
    ensures FeedBytes(c, a + b) == FeedBytes(FeedBytes(c, a), b)
    decreases |b|
  {
    if |b| == 0 {
      assert a + b == a;
    } else {
      var init := b[..|b| - 1];
      assert (a + b)[..|a + b| - 1] == a + init;
      FeedBytesConcat(c, a, init);
    }
  }

  /** Damage to any single byte of a chunk changes its checksum. */
  lemma SingleByteErrorDetected(before: seq<byte>, x: byte, y: byte, after: seq<byte>)
    requires x != y
    ensures Crc32(before + [x] + after) != Crc32(before + [y] + after)
  {
    var c := FeedBytes(Ones(), before);
    FeedBytesConcat(Ones(), before + [x], after);
    FeedBytesConcat(Ones(), before + [y], after);
    assert (before + [x])[..|before|] == before && (before + [y])[..|before|] == before;
    var cx, cy := FeedByte(c, x), FeedByte(c, y);
    ToFromBits(Xor(FeedBytes(cx, after), Ones()));
    ToFromBits(Xor(FeedBytes(cy, after), Ones()));
    XorInjective(Ones(), FeedBytes(cx, after), FeedBytes(cy, after));
    if FeedBytes(cx, after) == FeedBytes(cy, after) {
      FeedBytesInjective(cx, cy, after);
      FeedByteInjective(c, x, c, y);
      XorInjective(c, ByteWord(x), ByteWord(y));
      ByteWordInjective(x, y);
    }
  }

  // ---------- What fixes the definition ----------

  /** Data bits that complement the low bits of the register only shift it. */
  lemma FeedFull(c: Word, bits: seq<bool>)
    requires |bits| <= 32 && forall i :: 0 <= i < |bits| ==> bits[i] && c[i]
    ensures FeedBits(c, bits) == ShiftRight(c, |bits|)
  {
    FeedAtOnce(c, bits);
    var mixed := Xor(c, Pad(bits));
    forall i | 0 <= i < |bits| ensures !mixed[i] {
      assert Pad(bits)[i] == bits[i];
    }
    StepsShift(mixed, |bits|);
    forall i | |bits| <= i < 32 ensures mixed[i] == c[i] {
      assert !Pad(bits)[i];
    }
    assert mixed[|bits|..] == c[|bits|..];
  }

  lemma {:induction false} FullBits(x: nat, n: nat, bits: seq<bool>)
    requires x == Pow2(n) - 1 && bits == ToBits(x, n)
    ensures forall i :: 0 <= i < n ==> bits[i]
    decreases n
  {
    if n > 0 {
      assert x == 2 * (Pow2(n - 1) - 1) + 1;
      FullBits(x / 2, n - 1, ToBits(x / 2, n - 1));
    }
  }

  lemma FeedOnes(c: Word, x: byte, n: nat)
    requires n == 8 && x == Pow2(n) - 1 && forall i :: 0 <= i < n ==> c[i]
    ensures FeedByte(c, x) == ShiftRight(c, n)
  {
    var bits := ToBits(x, n);
    FullBits(x, n, bits);
    FeedFull(c, bits);
  }

  /** The checksum of nothing is 0 and that of one byte FF is FF 00 00 00: the preset and the final complement. */
  lemma KnownChecksums(full: byte)
    requires full == 255
    ensures Crc32([]) == 0
    ensures Crc32([full]) == 0xff00_0000
  {
    assert Xor(Ones(), Ones()) == Zeros(32);
    ZeroValue(32);
    FedOnce(full);
    HighByteValue(Xor(ShiftRight(Ones(), 8), Ones()));
  }

  lemma FedOnce(full: byte)
    requires full == 255
    ensures FeedBytes(Ones(), [full]) == ShiftRight(Ones(), 8)
  {
    assert Pow2(8) == 256;
    FeedOnes(Ones(), full, 8);
    assert [full][..0] == [];
  }

  lemma HighByteValue(w: Word)
    requires forall i :: 0 <= i < 32 ==> w[i] == (i >= 24)
    ensures FromBits(w) == 0xff00_0000
  {
    LowByteClear(w, w[8..]);
    LowByteClear(w[8..], w[16..]);
    LowByteClear(w[16..], w[24..]);
    ByteValue(w[24..]);
    assert w[24..][8..] == [];
  }

  lemma LowByteClear(s: seq<bool>, rest: seq<bool>)
    requires |s| >= 8 && rest == s[8..] && forall i :: 0 <= i < 8 ==> !s[i]
    ensures FromBits(s) == 256 * FromBits(rest)
  {
    ByteValue(s);
  }

  lemma {:induction false} ZeroValue(n: nat)
    ensures FromBits(Zeros(n)) == 0
  {
    if n > 0 {
      assert Zeros(n)[1..] == Zeros(n - 1);
      ZeroValue(n - 1);
    }
  }

  /** The most significant bit of a byte is brought in last: it alone has seen only the final division step. */
  lemma TopBitLast(c: Word, x: byte)
    requires x < 128
    ensures FeedByte(c, x + 128) == Xor(FeedByte(c, x), Polynomial())
  {
    var low, high := ToBits(x, 8), ToBits(x + 128, 8);
    TopBit(x, x + 128, 8);
    FeedTop(c, low, high, Pad(low), Pad(high));
  }

  lemma FeedTop(c: Word, low: seq<bool>, high: seq<bool>, lowWord: Word, highWord: Word)
    requires |low| == 8 && !low[7] && high == low[7 := true] && lowWord == Pad(low) && highWord == Pad(high)
    ensures FeedBits(c, high) == Xor(FeedBits(c, low), Polynomial())
  {
    var top: Word := seq(32, i => i == 7);
    FeedAtOnce(c, low);
    FeedAtOnce(c, high);
    assert highWord == lowWord[7 := true] && !lowWord[7];
    XorFlip(c, lowWord, highWord, top);
    StepsLinear(Xor(c, lowWord), top, |low|);
    TopSteps(top, 7);
  }

  lemma XorFlip(c: Word, low: Word, high: Word, top: Word)
    requires high == low[7 := true] && !low[7] && top[7] && forall i :: 0 <= i < 32 && i != 7 ==> !top[i]
    ensures Xor(c, high) == Xor(Xor(c, low), top)
  {
    forall i | 0 <= i < 32 ensures Xor(c, high)[i] == Xor(Xor(c, low), top)[i] {
    }
  }

  lemma TopSteps(top: Word, n: nat)
    requires n < 32 && top[n] && forall i :: 0 <= i < 32 && i != n ==> !top[i]
    ensures Steps(top, n + 1) == Polynomial()
  {
    StepsSplitAt(top, n);
    StepsShift(top, n);
    var last := ShiftRight(top, n);
    forall i | 0 <= i < 32 ensures last[i] == (i == 0) {
      if i + n < 32 { assert last[i] == top[i + n]; }
    }
    OnlyFirst(last);
    assert Steps(Step(last), 0) == Step(last);
  }

  lemma OnlyFirst(c: Word)
    requires forall i :: 0 <= i < 32 ==> c[i] == (i == 0)
    ensures Step(c) == Polynomial()
  {
    assert c[0];
    var rest := ShiftRight(c, 1);
    forall i | 0 <= i < 32 ensures !rest[i] {
      if i < 31 { assert rest[i] == c[i + 1]; }
    }
  }

  lemma {:induction false} StepsSplitAt(c: Word, n: nat)
    ensures Steps(c, n + 1) == Steps(Steps(c, n), 1)
    decreases n
  {
    if n > 0 { StepsSplitAt(Step(c), n - 1); }
  }

  lemma {:induction false} TopBit(x: nat, y: nat, n: nat)
    requires 0 < n && x < Pow2(n - 1) && y == x + Pow2(n - 1)
    ensures !ToBits(x, n)[n - 1] && ToBits(y, n) == ToBits(x, n)[n - 1 := true]
    decreases n
  {
    if n > 1 {
      assert y / 2 == x / 2 + Pow2(n - 2) && y % 2 == x % 2;
      TopBit(x / 2, y / 2, n - 1);
    }
  }
}
