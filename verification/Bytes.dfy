/**
 * Bytes and 32-bit words.  A word is the sequence of its bits, least significant first.
 */
module Bytes {

  type byte = x: int | 0 <= x < 256

  function Pow2(n: nat): nat {
    if n == 0 then 1 else 2 * Pow2(n - 1)
  }

  function ToBits(n: nat, len: nat): (s: seq<bool>)
    ensures |s| == len
    decreases len
  {
    if len == 0 then [] else [n % 2 == 1] + ToBits(n / 2, len - 1)
  }

  function FromBits(s: seq<bool>): nat {
    if |s| == 0 then 0 else (if s[0] then 1 else 0) + 2 * FromBits(s[1..])
  }

  lemma {:induction false} FromToBits(n: nat, len: nat)
    requires n < Pow2(len)
    ensures FromBits(ToBits(n, len)) == n
    decreases len
  {
    if len > 0 {
      FromToBits(n / 2, len - 1);
      assert ToBits(n, len)[1..] == ToBits(n / 2, len - 1);
    }
  }

  lemma {:induction false} ToFromBits(s: seq<bool>)
    ensures FromBits(s) < Pow2(|s|)
    ensures ToBits(FromBits(s), |s|) == s
    decreases |s|
  {
    if |s| > 0 {
      ToFromBits(s[1..]);
      assert s == [s[0]] + s[1..];
    }
  }

  function Zeros(n: nat): (s: seq<bool>)
    ensures |s| == n
  {
    seq(n, i => false)
  }

  lemma {:induction false} PaddedValue(a: seq<bool>, n: nat)
    ensures FromBits(a + Zeros(n)) == FromBits(a)
    decreases |a| + n
  {
    if |a| > 0 {
      assert (a + Zeros(n))[1..] == a[1..] + Zeros(n);
      PaddedValue(a[1..], n);
    } else if n > 0 {
      assert (a + Zeros(n))[1..] == a + Zeros(n - 1);
      PaddedValue(a, n - 1);
    }
  }

  type Word = s: seq<bool> | |s| == 32 witness seq(32, i => false)

  function Xor(a: Word, b: Word): Word {
    seq(32, i requires 0 <= i < 32 => a[i] != b[i])
  }

  function ShiftRight(a: Word, n: nat): Word
    requires n <= 32
  {
    a[n..] + Zeros(n)
  }

  /** The low bits of a word, the rest cleared. */
  function Low(a: Word, n: nat): Word
    requires n <= 32
  {
    a[..n] + Zeros(32 - n)
  }

  function Pad(bits: seq<bool>): Word
    requires |bits| <= 32
  {
    bits + Zeros(32 - |bits|)
  }

  function ByteWord(x: byte): Word {
    Pad(ToBits(x, 8))
  }

  /** `w & 0xff`, as a number. */
  function LowByte(w: Word): (x: byte)
    ensures ByteWord(x) == Low(w, 8)
  {
    ToFromBits(w[..8]);
    FromBits(w[..8])
  }

  lemma XorInjective(c: Word, x: Word, y: Word)
    ensures Xor(c, x) == Xor(c, y) ==> x == y
    ensures Xor(x, c) == Xor(y, c) ==> x == y
  {
    if Xor(c, x) == Xor(c, y) || Xor(x, c) == Xor(y, c) {
      forall i | 0 <= i < 32 ensures x[i] == y[i] {
        assert Xor(c, x)[i] == (c[i] != x[i]) && Xor(c, y)[i] == (c[i] != y[i]);
        assert Xor(x, c)[i] == (x[i] != c[i]) && Xor(y, c)[i] == (y[i] != c[i]);
      }
    }
  }

  lemma ByteWordInjective(x: byte, y: byte)
    requires ByteWord(x) == ByteWord(y)
    ensures x == y
  {
    assert ByteWord(x)[..8] == ToBits(x, 8) && ByteWord(y)[..8] == ToBits(y, 8);
    FromToBits(x, 8);
    FromToBits(y, 8);
  }

  function Bit(b: bool): nat { if b then 1 else 0 }

  /** Four bits at a time. */
  lemma NibbleValue(s: seq<bool>)
    requires |s| >= 4
    ensures FromBits(s) == Bit(s[0]) + 2 * Bit(s[1]) + 4 * Bit(s[2]) + 8 * Bit(s[3]) + 16 * FromBits(s[4..])
  {
    var s1 := s[1..];
    var s2 := s1[1..];
    var s3 := s2[1..];
    assert s3[1..] == s[4..];
    assert FromBits(s3) == Bit(s[3]) + 2 * FromBits(s[4..]);
    assert FromBits(s2) == Bit(s[2]) + 2 * FromBits(s3);
    assert FromBits(s1) == Bit(s[1]) + 2 * FromBits(s2);
  }

  lemma ByteValue(s: seq<bool>)
    requires |s| >= 8
    ensures FromBits(s) == Bit(s[0]) + 2 * Bit(s[1]) + 4 * Bit(s[2]) + 8 * Bit(s[3])
                           + 16 * Bit(s[4]) + 32 * Bit(s[5]) + 64 * Bit(s[6]) + 128 * Bit(s[7]) + 256 * FromBits(s[8..])
  {
    NibbleValue(s);
    NibbleValue(s[4..]);
    assert s[4..][4..] == s[8..];
  }
}
