/**
 * Perceptual hashes as strings of hexadecimal digits: thresholding and packing the bits, and the
 * distance between two hashes.
 */
module Hamming {
  import opened StableSort

  const MaxSafeInteger: nat := 0x1f_ffff_ffff_ffff

  // ---------- Digits ----------

  /** `parseInt(c, 16)` as a bit operand: what is no digit is NaN, and NaN counts as zero. */
  function Digit(c: char): (d: nat)
    ensures d < 16
  {
    if '0' <= c <= '9' then c as int - '0' as int
    else if 'a' <= c <= 'f' then c as int - 'a' as int + 10
    else if 'A' <= c <= 'F' then c as int - 'A' as int + 10
    else 0
  }

  /** `n.toString(16)` */
  function HexChar(n: nat): (c: char)
    requires n < 16
    ensures Digit(c) == n && IsLowerHex(c)
  {
    "0123456789abcdef"[n]
  }

  predicate IsLowerHex(c: char) { '0' <= c <= '9' || 'a' <= c <= 'f' }

  lemma LowerDigitsDiffer(c: char, d: char)
    requires IsLowerHex(c) && IsLowerHex(d) && Digit(c) == Digit(d)
    ensures c == d
  {
  }

  /** The four bits of a digit, most significant first. */
  function FourBits(d: nat): (bits: seq<bool>)
    ensures |bits| == 4
  {
    [d / 8 % 2 == 1, d / 4 % 2 == 1, d / 2 % 2 == 1, d % 2 == 1]
  }

  function Bit(b: bool): nat { if b then 1 else 0 }

  /** Four bits read in base two. */
  function Nibble(bits: seq<bool>): (d: nat)
    requires |bits| == 4
    ensures d < 16
  {
    8 * Bit(bits[0]) + 4 * Bit(bits[1]) + 2 * Bit(bits[2]) + Bit(bits[3])
  }

  lemma NibbleOfBits(d: nat)
    requires d < 16
    ensures Nibble(FourBits(d)) == d
  {
    assert d == 8 * (d / 8) + 4 * (d / 4 % 2) + 2 * (d / 2 % 2) + d % 2;
  }

  lemma BitsOfNibble(bits: seq<bool>)
    requires |bits| == 4
    ensures FourBits(Nibble(bits)) == bits
  {
    var d := Nibble(bits);
    assert d / 2 == 4 * Bit(bits[0]) + 2 * Bit(bits[1]) + Bit(bits[2]);
    assert d / 4 == 2 * Bit(bits[0]) + Bit(bits[1]);
    assert d / 8 == Bit(bits[0]);
  }

  // ---------- Counting differences ----------

  function Differences(x: seq<bool>, y: seq<bool>): nat
    requires |x| == |y|
  {
    if |x| == 0 then 0 else Differences(x[..|x| - 1], y[..|y| - 1]) + Bit(x[|x| - 1] != y[|y| - 1])
  }

  lemma {:induction false} DifferencesJoin(a: seq<bool>, b: seq<bool>, x: seq<bool>, y: seq<bool>)
    requires |a| == |x| && |b| == |y|
    ensures Differences(a + b, x + y) == Differences(a, x) + Differences(b, y)
    decreases |b|
  {
    if |b| == 0 {
      assert a + b == a && x + y == x;
    } else {
      var n := |b| - 1;
      assert (a + b)[..|a + b| - 1] == a + b[..n] && (x + y)[..|x + y| - 1] == x + y[..n];
      DifferencesJoin(a, b[..n], x, y[..n]);
    }
  }

  lemma {:induction false} DifferencesMetric(x: seq<bool>, y: seq<bool>, z: seq<bool>)
    requires |x| == |y| == |z|
    ensures Differences(x, y) == 0 <==> x == y
    ensures Differences(x, y) == Differences(y, x) <= |x|
    ensures Differences(x, z) <= Differences(x, y) + Differences(y, z)
    decreases |x|
  {
    if |x| > 0 {
      var n := |x| - 1;
      DifferencesMetric(x[..n], y[..n], z[..n]);
      assert x == x[..n] + [x[n]] && y == y[..n] + [y[n]];
    }
  }

  /** All bits of a string of digits. */
  function BitsOf(s: string): (bits: seq<bool>)
    ensures |bits| == 4 * |s|
  {
    if |s| == 0 then [] else BitsOf(s[..|s| - 1]) + FourBits(Digit(s[|s| - 1]))
  }

  // ---------- The program ----------

  /** `x ^ y` on digits. */
  function Xor(x: nat, y: nat): (z: nat)
    ensures z < 16
  {
    var a, b := FourBits(x), FourBits(y);
    Nibble([a[0] != b[0], a[1] != b[1], a[2] != b[2], a[3] != b[3]])
  }

  function PopCount(x: nat): nat { if x == 0 then 0 else x % 2 + PopCount(x / 2) }

  lemma PopCountOfNibble(bits: seq<bool>)
    requires |bits| == 4
    ensures PopCount(Nibble(bits)) == Bit(bits[0]) + Bit(bits[1]) + Bit(bits[2]) + Bit(bits[3])
  {
    var d := Nibble(bits);
    var e := 4 * Bit(bits[0]) + 2 * Bit(bits[1]) + Bit(bits[2]);
    var f := 2 * Bit(bits[0]) + Bit(bits[1]);
    assert d % 2 == Bit(bits[3]) && d / 2 == e;
    assert e % 2 == Bit(bits[2]) && e / 2 == f;
    assert f % 2 == Bit(bits[1]) && f / 2 == Bit(bits[0]);
    assert PopCount(Bit(bits[0])) == Bit(bits[0]);
    assert PopCount(f) == Bit(bits[1]) + Bit(bits[0]);
    assert PopCount(e) == Bit(bits[2]) + PopCount(f);
  }

  lemma XorCountsDifferences(x: nat, y: nat)
    ensures PopCount(Xor(x, y)) == Differences(FourBits(x), FourBits(y))
  {
    var a, b := FourBits(x), FourBits(y);
    PopCountOfNibble([a[0] != b[0], a[1] != b[1], a[2] != b[2], a[3] != b[3]]);
    assert a[..3][..2] == a[..2] && b[..3][..2] == b[..2] && a[..2][..1] == a[..1] && b[..2][..1] == b[..1];
    assert Differences(a[..1], b[..1]) == Bit(a[0] != b[0]);
    assert Differences(a[..2], b[..2]) == Differences(a[..1], b[..1]) + Bit(a[1] != b[1]);
    assert Differences(a[..3], b[..3]) == Differences(a[..2], b[..2]) + Bit(a[2] != b[2]);
  }

  /** The distance of two hashes; strings of different lengths are as far apart as can be. */
  function Distance(a: string, b: string): nat {
    if |a| != |b| then MaxSafeInteger else Differences(BitsOf(a), BitsOf(b))
  }

  method HammingDistance(a: string, b: string) returns (d: nat)
    ensures d == Distance(a, b)
  {
    if |a| != |b| {
      return MaxSafeInteger;
    }
    d := 0;
    var i := 0;
    while i < |a|
      invariant 0 <= i <= |a|
      invariant d == Differences(BitsOf(a[..i]), BitsOf(b[..i]))
    {
      ghost var before := d;
      var x := Xor(Digit(a[i]), Digit(b[i]));
      ghost var whole := PopCount(x);
      while x != 0
        invariant d + PopCount(x) == before + whole
      {
        d := d + x % 2;
        x := x / 2;
      }
      NextDigit(a, b, i);
      i := i + 1;
    }
    assert a[..i] == a && b[..i] == b;
  }

  lemma NextDigit(a: string, b: string, i: nat)
    requires |a| == |b| && i < |a|
    ensures Differences(BitsOf(a[..i + 1]), BitsOf(b[..i + 1]))
            == Differences(BitsOf(a[..i]), BitsOf(b[..i])) + PopCount(Xor(Digit(a[i]), Digit(b[i])))
  {
    assert a[..i + 1][..i] == a[..i] && b[..i + 1][..i] == b[..i];
    DifferencesJoin(BitsOf(a[..i]), FourBits(Digit(a[i])), BitsOf(b[..i]), FourBits(Digit(b[i])));
    XorCountsDifferences(Digit(a[i]), Digit(b[i]));
  }

  // ---------- The distance is a metric ----------

  lemma {:induction false} SameBitsSameDigits(a: string, b: string)
    requires |a| == |b|
    ensures BitsOf(a) == BitsOf(b) <==> forall i :: 0 <= i < |a| ==> Digit(a[i]) == Digit(b[i])
    decreases |a|
  {
    if |a| > 0 {
      var n := |a| - 1;
      SameBitsSameDigits(a[..n], b[..n]);
      NibbleOfBits(Digit(a[n]));
      NibbleOfBits(Digit(b[n]));
      EqualParts(BitsOf(a[..n]), FourBits(Digit(a[n])), BitsOf(b[..n]), FourBits(Digit(b[n])));
      assert FourBits(Digit(a[n])) == FourBits(Digit(b[n])) <==> Digit(a[n]) == Digit(b[n]);
    }
  }

  lemma EqualParts(a: seq<bool>, b: seq<bool>, x: seq<bool>, y: seq<bool>)
    requires |a| == |x|
    ensures a + b == x + y <==> a == x && b == y
  {
    if a + b == x + y {
      assert a == (a + b)[..|a|] && x == (x + y)[..|a|];
      assert b == (a + b)[|a|..] && y == (x + y)[|a|..];
    }
  }

  /**
   * On strings of one length: symmetric, at most four times the length, with the triangle
   * inequality, and zero exactly when the digits agree.
   */
  lemma DistanceIsMetric(a: string, b: string, c: string)
    requires |a| == |b| == |c|
    ensures Distance(a, b) == Distance(b, a) <= 4 * |a|
    ensures Distance(a, c) <= Distance(a, b) + Distance(b, c)
    ensures Distance(a, b) == 0 <==> forall i :: 0 <= i < |a| ==> Digit(a[i]) == Digit(b[i])
  {
    DifferencesMetric(BitsOf(a), BitsOf(b), BitsOf(c));
    SameBitsSameDigits(a, b);
  }

  /** Strings of different lengths are farther apart than any two of one length can be (below 2^51 digits). */
  lemma LengthsApart(a: string, b: string, c: string, d: string)
    requires |a| != |b| && |c| == |d| && |c| < 0x8_0000_0000_0000 - 1
    ensures Distance(c, d) < Distance(a, b) == 9_007_199_254_740_991
  {
    DistanceIsMetric(c, d, d);
  }

  ghost predicate IsHash(s: string) { forall i :: 0 <= i < |s| ==> IsLowerHex(s[i]) }

  /** Hashes, being in lower case, are equal when their distance is zero. */
  lemma ZeroIffEqual(a: string, b: string)
    requires IsHash(a) && IsHash(b)
    ensures Distance(a, b) == 0 <==> a == b
  {
    if |a| == |b| {
      DistanceIsMetric(a, b, b);
      if Distance(a, b) == 0 {
        forall i | 0 <= i < |a| ensures a[i] == b[i] {
          LowerDigitsDiffer(a[i], b[i]);
        }
      }
    }
  }

  // ---------- Packing ----------

  function Packed(bits: seq<bool>, n: nat): (hex: string)
    requires 4 * n <= |bits|
    ensures |hex| == n
  {
    if n == 0 then "" else Packed(bits, n - 1) + [HexChar(Nibble(bits[4 * (n - 1)..4 * (n - 1) + 4]))]
  }

  lemma PackingKeepsBits(bits: seq<bool>, n: nat)
    requires 4 * n <= |bits|
    ensures BitsOf(Packed(bits, n)) == bits[..4 * n] && IsHash(Packed(bits, n))
  {
    PackedPrefix(bits, n, 4 * n);
  }

  lemma {:induction false} PackedPrefix(bits: seq<bool>, n: nat, m: nat)
    requires m == 4 * n <= |bits|
    ensures BitsOf(Packed(bits, n)) == bits[..m] && IsHash(Packed(bits, n))
    decreases n
  {
    if n > 0 {
      PackedPrefix(bits, n - 1, m - 4);
      PackNext(bits, Packed(bits, n - 1), m - 4, m, bits[m - 4..m]);
    }
  }

  lemma PackNext(bits: seq<bool>, hex: string, m: nat, next: nat, last: seq<bool>)
    requires m + 4 == next <= |bits| && BitsOf(hex) == bits[..m] && IsHash(hex) && last == bits[m..next]
    ensures BitsOf(hex + [HexChar(Nibble(last))]) == bits[..next] && IsHash(hex + [HexChar(Nibble(last))])
  {
    BitsOfNibble(last);
    BitsOfPush(hex, HexChar(Nibble(last)));
    NextFour(bits, m);
  }

  lemma NextFour(bits: seq<bool>, m: nat)
    requires m + 4 <= |bits|
    ensures bits[..m] + bits[m..m + 4] == bits[..m + 4]
  {
  }

  lemma BitsOfPush(s: string, c: char)
    ensures BitsOf(s + [c]) == BitsOf(s) + FourBits(Digit(c))
  {
    assert (s + [c])[..|s + [c]| - 1] == s;
  }

  /** The distance of two packed hashes is the number of bits in which they differ. */
  lemma PackedDistance(x: seq<bool>, y: seq<bool>, n: nat)
    requires |x| == |y| == 4 * n
    ensures Distance(Packed(x, n), Packed(y, n)) == Differences(x, y)
  {
    PackingKeepsBits(x, n);
    PackingKeepsBits(y, n);
    assert x[..4 * n] == x && y[..4 * n] == y;
  }

  // ---------- Thresholding ----------

  function Above(low: seq<real>, v: real): nat {
    if |low| == 0 then 0 else Bit(low[0] > v) + Above(low[1..], v)
  }

  function Ones(bits: seq<bool>): nat {
    if |bits| == 0 then 0 else Ones(bits[..|bits| - 1]) + Bit(bits[|bits| - 1])
  }

  function Identity(x: real): real { x }

  /** The bit string of 63 coefficients: a zero for the constant term, then who exceeds the median. */
  function Thresholded(low: seq<real>, median: real): (bits: seq<bool>)
    ensures |bits| == |low| + 1
  {
    [false] + seq(|low|, i requires 0 <= i < |low| => low[i] > median)
  }

  method Threshold(low: seq<real>, median: real) returns (bits: seq<bool>)
    requires |low| == 63
    ensures bits == Thresholded(low, median)
  {
    bits := [];
    var idx := 0;
    var v := 0;
    while v < 8
      invariant 0 <= v <= 8 && |bits| == 8 * v && idx == if v == 0 then 0 else 8 * v - 1
      invariant forall i :: 0 <= i < |bits| ==> bits[i] == Thresholded(low, median)[i]
    {
      var u := 0;
      while u < 8
        invariant 0 <= u <= 8 && |bits| == 8 * v + u && idx == if v == 0 && u == 0 then 0 else 8 * v + u - 1
        invariant forall i :: 0 <= i < |bits| ==> bits[i] == Thresholded(low, median)[i]
      {
        if u == 0 && v == 0 {
          bits := bits + [false];
        } else {
          bits := bits + [low[idx] > median];
          idx := idx + 1;
        }
        u := u + 1;
      }
      v := v + 1;
    }
  }

  method Pack(bits: seq<bool>) returns (hex: string)
    requires |bits| == 64
    ensures hex == Packed(bits, 16)
  {
    hex := "";
    ghost var n := 0;
    var i := 0;
    while i < 64
      invariant 0 <= n <= 16 && i == 4 * n
      invariant hex == Packed(bits, n)
    {
      hex := hex + [HexChar(Nibble(bits[i..i + 4]))];
      i, n := i + 4, n + 1;
    }
  }

  method HashOfCoefficients(low: seq<real>) returns (hex: string)
    requires |low| == 63
    ensures hex == Packed(Thresholded(low, SortBy(low, Identity)[31]), 16)
    ensures |hex| == 16 && IsHash(hex)
  {
    var sorted := SortBy(low, Identity);
    var bits := Threshold(low, sorted[|sorted| / 2]);
    hex := Pack(bits);
    PackingKeepsBits(bits, 16);
  }

  lemma {:induction false} AboveInsert(x: real, s: seq<real>, v: real)
    ensures Above(Insert(x, s, Identity), v) == Bit(x > v) + Above(s, v)
    decreases |s|
  {
    if |s| == 0 || x <= s[0] {
      assert ([x] + s)[1..] == s;
    } else {
      AboveInsert(x, s[1..], v);
      var rest := Insert(x, s[1..], Identity);
      assert ([s[0]] + rest)[1..] == rest;
    }
  }

  lemma {:induction false} AboveSorted(s: seq<real>, v: real)
    ensures Above(SortBy(s, Identity), v) == Above(s, v)
  {
    if |s| > 0 {
      AboveSorted(s[1..], v);
      AboveInsert(s[0], SortBy(s[1..], Identity), v);
    }
  }

  /** Only elements behind position m exceed v when those up to it do not. */
  lemma {:induction false} AboveBound(s: seq<real>, v: real, m: nat)
    requires m <= |s| && forall i :: 0 <= i < m ==> s[i] <= v
    ensures Above(s, v) <= |s| - m
    ensures (forall i :: m <= i < |s| ==> s[i] > v) ==> Above(s, v) == |s| - m
    decreases |s|
  {
    if |s| > 0 {
      AboveBound(s[1..], v, if m > 0 then m - 1 else 0);
    }
  }

  lemma {:induction false} OnesOfThresholded(low: seq<real>, median: real, n: nat)
    requires n <= |low|
    ensures Ones(Thresholded(low, median)[..n + 1]) == Above(low[..n], median)
    decreases n
  {
    var bits := Thresholded(low, median);
    if n == 0 {
      assert bits[..1] == [false] && [false][..0] == [];
    } else {
      OnesOfThresholded(low, median, n - 1);
      assert bits[..n + 1][..n] == bits[..n];
      assert low[..n] == low[..n - 1] + [low[n - 1]];
      AboveJoin(low[..n - 1], [low[n - 1]], median);
      assert [low[n - 1]][1..] == [];
    }
  }

  lemma {:induction false} AboveJoin(a: seq<real>, b: seq<real>, v: real)
    ensures Above(a + b, v) == Above(a, v) + Above(b, v)
    decreases |a|
  {
    if |a| == 0 {
      assert a + b == b;
    } else {
      assert (a + b)[1..] == a[1..] + b;
      AboveJoin(a[1..], b, v);
    }
  }

  /** At most 31 of the 64 bits are set; exactly 31 when no coefficient behind the median equals it. */
  lemma HashIsBalanced(low: seq<real>)
    requires |low| == 63
    ensures var sorted := SortBy(low, Identity);
            var ones := Ones(Thresholded(low, sorted[31]));
            ones <= 31 && (sorted[32] > sorted[31] ==> ones == 31)
  {
    var median := SortBy(low, Identity)[31];
    AboveMedian(low, 31);
    OnesOfAll(low, median);
  }

  lemma AboveMedian(low: seq<real>, m: nat)
    requires m + 1 < |low|
    ensures var sorted := SortBy(low, Identity);
            && Above(low, sorted[m]) <= |low| - m - 1
            && (sorted[m + 1] > sorted[m] ==> Above(low, sorted[m]) == |low| - m - 1)
  {
    var sorted := SortBy(low, Identity);
    SortAscending(low, Identity);
    forall i | 0 <= i < |sorted|
      ensures i <= m ==> sorted[i] <= sorted[m]
      ensures m < i ==> sorted[m + 1] <= sorted[i]
    {
      assert i < m ==> Identity(sorted[i]) <= Identity(sorted[m]);
      assert m + 1 < i ==> Identity(sorted[m + 1]) <= Identity(sorted[i]);
    }
    AboveBound(sorted, sorted[m], m + 1);
    AboveSorted(low, sorted[m]);
  }

  lemma OnesOfAll(low: seq<real>, median: real)
    ensures Ones(Thresholded(low, median)) == Above(low, median)
  {
    OnesOfThresholded(low, median, |low|);
    var bits := Thresholded(low, median);
    assert bits[..|low| + 1] == bits && low[..|low|] == low;
  }

  // ---------- The hash, bit by bit ----------

  /** What a digit weighs its i-th bit with. */
  function Weight(i: nat): nat
    requires i < 4
  {
    if i == 0 then 8 else if i == 1 then 4 else if i == 2 then 2 else 1
  }

  lemma {:induction false} PackedDigit(bits: seq<bool>, n: nat, k: nat)
    requires 4 * n <= |bits| && k < n
    ensures Packed(bits, n)[k] == HexChar(Nibble(bits[4 * k..4 * k + 4]))
    decreases n
  {
    if k < n - 1 { PackedDigit(bits, n - 1, k); }
  }

  lemma NibbleBit(bits: seq<bool>, i: nat)
    requires |bits| == 4 && i < 4
    ensures Nibble(bits) / Weight(i) % 2 == 1 <==> bits[i]
  {
    BitsOfNibble(bits);
    assert FourBits(Nibble(bits))[i] == bits[i];
  }

  /**
   * Bit 4k + i of the hash is the bit of weight 8, 4, 2, 1 of its digit k: clear for the constant
   * term, and for coefficient j set exactly when it exceeds the median of the 63.
   */
  lemma HashBit(low: seq<real>, k: nat, i: nat)
    requires |low| == 63 && k < 16 && i < 4
    ensures var hex, median := Packed(Thresholded(low, SortBy(low, Identity)[31]), 16), SortBy(low, Identity)[31];
            Digit(hex[k]) / Weight(i) % 2 == 1 <==> 4 * k + i > 0 && low[4 * k + i - 1] > median
  {
    var bits := Thresholded(low, SortBy(low, Identity)[31]);
    PackedDigit(bits, 16, k);
    NibbleBit(bits[4 * k..4 * k + 4], i);
  }

  /** Upper-case digits count as lower-case ones. */
  lemma CaseDoesNotMatter(c: char)
    requires 'a' <= c <= 'f'
    ensures Digit((c as int - 'a' as int + 'A' as int) as char) == Digit(c) == c as int - 'a' as int + 10
  {
  }
}
