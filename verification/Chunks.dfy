/**
 * The chunk layer of PNG files (section 3 of RFC 2083): writing a chunk, walking the chunks of a
 * file and collecting the image data.
 */
module Chunks {
  import opened Bytes
  import Crc
  import opened Filter

  const Limit: nat := 0x1_0000_0000

  // ---------- Big-endian numbers ----------

  function WriteBE(n: nat): (b: seq<byte>)
    requires n < Limit
    ensures |b| == 4
  {
    [n / 0x100_0000, n / 0x1_0000 % 256, n / 0x100 % 256, n % 256]
  }

  function ReadBE(buf: seq<byte>, at: nat): (n: nat)
    requires at + 4 <= |buf|
    ensures n < Limit
  {
    var a: int, b: int, c: int, d: int := buf[at], buf[at + 1], buf[at + 2], buf[at + 3];
    a * 0x100_0000 + b * 0x1_0000 + c * 0x100 + d
  }

  lemma DigitsOf(n: nat)
    requires n < Limit
    ensures n / 0x100_0000 * 0x100_0000 + n / 0x1_0000 % 256 * 0x1_0000 + n / 0x100 % 256 * 0x100 + n % 256 == n
  {
    var a := n / 0x100;
    var b := a / 0x100;
    assert n / 0x1_0000 == b && n / 0x100_0000 == b / 0x100;
  }

  lemma ReadsBack(buf: seq<byte>, n: nat, at: nat)
    requires n < Limit && HoldsRow(buf, WriteBE(n), at)
    ensures ReadBE(buf, at) == n
  {
    DigitsOf(n);
    var b := WriteBE(n);
    assert buf[at + 0] == b[0] && buf[at + 1] == b[1] && buf[at + 2] == b[2] && buf[at + 3] == b[3];
  }

  // ---------- Chunks ----------

  /** Four ASCII letters. */
  type Name = s: seq<byte> | |s| == 4 && forall i :: 0 <= i < 4 ==> s[i] < 128 witness [73, 72, 68, 82]

  const IHDR: Name := [73, 72, 68, 82]
  const IDAT: Name := [73, 68, 65, 84]
  const IEND: Name := [73, 69, 78, 68]

  datatype Chunk = Chunk(name: Name, data: seq<byte>) {
    /** The length field has room for the data. */
    ghost predicate Fits() { |data| < Limit }
  }

  lemma {:induction false} Pow2Sum(a: nat, b: nat)
    ensures Pow2(a + b) == Pow2(a) * Pow2(b)
    decreases b
  {
    if b > 0 {
      Pow2Sum(a, b - 1);
    }
  }

  lemma WordFits(w: Word)
    ensures FromBits(w) < Limit
  {
    ToFromBits(w);
    var n := 8;
    assert Pow2(8) == 256;
    Pow2Sum(n, n);
    Pow2Sum(n + n, n + n);
  }

  lemma CrcFits(data: seq<byte>)
    ensures Crc.Crc32(data) < Limit
  {
    WordFits(Xor(Crc.FeedBytes(Crc.Ones(), data), Crc.Ones()));
  }

  /** Length, name, data, checksum over name and data. */
  ghost function Serialized(c: Chunk): (b: seq<byte>)
    requires c.Fits()
    ensures |b| == 12 + |c.data|
  {
    CrcFits(c.name + c.data);
    WriteBE(|c.data|) + c.name + c.data + WriteBE(Crc.Crc32(c.name + c.data))
  }

  method WriteChunk(table: seq<Crc.JsNumber>, c: Chunk) returns (b: seq<byte>)
    requires Crc.IsCrcTable(table) && c.Fits()
    ensures b == Serialized(c)
  {
    var crc := Crc.ComputeCrc32(table, c.name + c.data);
    CrcFits(c.name + c.data);
    b := WriteBE(|c.data|) + c.name + c.data + WriteBE(crc);
  }

  ghost predicate AllFit(chunks: seq<Chunk>) {
    forall k :: 0 <= k < |chunks| ==> chunks[k].Fits()
  }

  ghost function SerializedAll(chunks: seq<Chunk>): seq<byte>
    requires AllFit(chunks)
  {
    if |chunks| == 0 then [] else Serialized(chunks[0]) + SerializedAll(chunks[1..])
  }

  // ---------- Where chunks stand in a buffer ----------

  lemma HoldsParts(buf: seq<byte>, a: seq<byte>, b: seq<byte>, at: nat, mid: nat)
    requires HoldsRow(buf, a + b, at) && mid == at + |a|
    ensures HoldsRow(buf, a, at) && HoldsRow(buf, b, mid)
  {
    forall i | 0 <= i < |a| ensures buf[at + i] == a[i] {
      assert (a + b)[i] == a[i];
    }
    forall i | 0 <= i < |b| ensures buf[mid + i] == b[i] {
      assert (a + b)[|a| + i] == b[i];
      assert buf[at + (|a| + i)] == (a + b)[|a| + i];
    }
  }

  lemma HeldSlice(buf: seq<byte>, row: seq<byte>, at: nat)
    requires HoldsRow(buf, row, at)
    ensures buf[at..at + |row|] == row
  {
  }

  ghost predicate ChunkAt(buf: seq<byte>, c: Chunk, at: nat) {
    && at + 12 + |c.data| <= |buf|
    && ReadBE(buf, at) == |c.data|
    && HoldsRow(buf, c.name, at + 4)
    && HoldsRow(buf, c.data, at + 8)
  }

  lemma SerializedAt(buf: seq<byte>, c: Chunk, at: nat)
    requires c.Fits() && HoldsRow(buf, Serialized(c), at)
    ensures ChunkAt(buf, c, at)
  {
    CrcFits(c.name + c.data);
    var length, crc := WriteBE(|c.data|), WriteBE(Crc.Crc32(c.name + c.data));
    HoldsParts(buf, length + c.name + c.data, crc, at, at + 8 + |c.data|);
    HoldsParts(buf, length + c.name, c.data, at, at + 8);
    HoldsParts(buf, length, c.name, at, at + 4);
    ReadsBack(buf, |c.data|, at);
  }

  function SizeOf(c: Chunk): nat { 12 + |c.data| }

  function SizeOfAll(chunks: seq<Chunk>): nat {
    if |chunks| == 0 then 0 else SizeOf(chunks[0]) + SizeOfAll(chunks[1..])
  }

  ghost predicate ChunksAt(buf: seq<byte>, chunks: seq<Chunk>, at: nat) {
    |chunks| == 0 || (ChunkAt(buf, chunks[0], at) && ChunksAt(buf, chunks[1..], at + SizeOf(chunks[0])))
  }

  lemma {:induction false} SerializedAllAt(buf: seq<byte>, chunks: seq<Chunk>, at: nat)
    requires AllFit(chunks) && HoldsRow(buf, SerializedAll(chunks), at)
    ensures ChunksAt(buf, chunks, at)
    decreases |chunks|
  {
    if |chunks| > 0 {
      var next := at + SizeOf(chunks[0]);
      HoldsParts(buf, Serialized(chunks[0]), SerializedAll(chunks[1..]), at, next);
      SerializedAt(buf, chunks[0], at);
      SerializedAllAt(buf, chunks[1..], next);
    }
  }

  // ---------- The walk ----------

  /** Decoding as ASCII drops the top bit of each byte. */
  function Ascii(buf: seq<byte>, at: nat): (name: Name)
    requires at + 4 <= |buf|
  {
    [buf[at] % 128, buf[at + 1] % 128, buf[at + 2] % 128, buf[at + 3] % 128]
  }

  lemma NameReadsBack(buf: seq<byte>, name: Name, at: nat)
    requires HoldsRow(buf, name, at)
    ensures Ascii(buf, at) == name
  {
    assert buf[at + 0] == name[0] && buf[at + 1] == name[1] && buf[at + 2] == name[2] && buf[at + 3] == name[3];
  }

  /** A slice cut off at the end of the buffer. */
  function Subarray(buf: seq<byte>, from: nat, to: nat): seq<byte>
    requires from <= |buf| && from <= to
  {
    if to <= |buf| then buf[from..to] else buf[from..]
  }

  /** The payload of the chunk at `off`, if it is image data. */
  function Here(buf: seq<byte>, off: nat): (parts: seq<seq<byte>>)
    requires off + 8 <= |buf|
  {
    if Ascii(buf, off + 4) == IDAT then [Subarray(buf, off + 8, off + 8 + ReadBE(buf, off))] else []
  }

  function Next(buf: seq<byte>, off: nat): nat
    requires off + 8 <= |buf|
  {
    off + 12 + ReadBE(buf, off)
  }

  /** The payloads met by the walk from `off`. */
  function ImageData(buf: seq<byte>, off: nat): seq<seq<byte>>
    decreases |buf| + 8 - off
  {
    if off + 8 > |buf| || Ascii(buf, off + 4) == IEND then []
    else Here(buf, off) + ImageData(buf, Next(buf, off))
  }

  lemma Regroup(a: seq<seq<byte>>, b: seq<seq<byte>>, c: seq<seq<byte>>, bc: seq<seq<byte>>)
    requires bc == b + c
    ensures a + bc == (a + b) + c
  {}

  /** What the walk has collected, and what it would collect from `off` on, make up the total. */
  ghost predicate Collected(buf: seq<byte>, off: nat, chunks: seq<seq<byte>>, total: seq<seq<byte>>) {
    chunks + ImageData(buf, off) == total
  }

  lemma CollectedNext(buf: seq<byte>, off: nat, chunks: seq<seq<byte>>, total: seq<seq<byte>>)
    requires off + 8 <= |buf| && Collected(buf, off, chunks, total)
    ensures if Ascii(buf, off + 4) == IEND then chunks == total
            else Collected(buf, Next(buf, off), chunks + Here(buf, off), total)
  {
    if Ascii(buf, off + 4) == IEND {
      assert chunks + [] == chunks;
    } else {
      Regroup(chunks, Here(buf, off), ImageData(buf, Next(buf, off)), ImageData(buf, off));
    }
  }

  lemma CollectedEnds(buf: seq<byte>, off: nat, chunks: seq<seq<byte>>, total: seq<seq<byte>>)
    requires Collected(buf, off, chunks, total) && off + 8 > |buf|
    ensures chunks == total
  {
    assert chunks + [] == chunks;
  }

  lemma CollectedStarts(buf: seq<byte>)
    ensures Collected(buf, 8, [], ImageData(buf, 8))
  {
    assert [] + ImageData(buf, 8) == ImageData(buf, 8);
  }

  /** One chunk of the walk. */
  method VisitChunk(buf: seq<byte>, off: nat, chunks: seq<seq<byte>>, ghost total: seq<seq<byte>>)
    returns (more: seq<seq<byte>>, end: bool, next: nat)
    requires off + 8 <= |buf| && Collected(buf, off, chunks, total)
    ensures next == Next(buf, off)
    ensures if end then more == total else Collected(buf, next, more, total)
  {
    CollectedNext(buf, off, chunks, total);
    var length, name := ReadBE(buf, off), Ascii(buf, off + 4);
    more, next := chunks, off + 12 + length;
    if name == IDAT {
      more := more + [Subarray(buf, off + 8, off + 8 + length)];
    } else {
      assert chunks + [] == chunks;
    }
    end := name == IEND;
  }

  method CollectImageData(buf: seq<byte>) returns (chunks: seq<seq<byte>>)
    ensures chunks == ImageData(buf, 8)
  {
    chunks := [];
    ghost var total := ImageData(buf, 8);
    CollectedStarts(buf);
    var off, end := 8, false;
    while !end && off + 8 <= |buf|
      invariant 8 <= off
      invariant if end then chunks == total else Collected(buf, off, chunks, total)
      decreases |buf| + 8 - off, !end
    {
      chunks, end, off := VisitChunk(buf, off, chunks, total);
    }
    if !end { CollectedEnds(buf, off, chunks, total); }
  }

  ghost function Payload(c: Chunk): seq<seq<byte>> {
    if c.name == IDAT then [c.data] else []
  }

  /** The image data in front of the end chunk, if there is one. */
  ghost function Payloads(chunks: seq<Chunk>): seq<seq<byte>> {
    if |chunks| == 0 || chunks[0].name == IEND then []
    else Payload(chunks[0]) + Payloads(chunks[1..])
  }

  function Concat(parts: seq<seq<byte>>): seq<byte> {
    if |parts| == 0 then [] else parts[0] + Concat(parts[1..])
  }

  ghost predicate HasEnd(chunks: seq<Chunk>) {
    exists k :: 0 <= k < |chunks| && chunks[k].name == IEND
  }

  /**
   * However the image data is split and whatever other chunks stand between, the walk collects
   * exactly the payloads in front of the end chunk; what follows the end chunk is not looked at.
   */
  lemma {:induction false} WalkCollects(buf: seq<byte>, chunks: seq<Chunk>, off: nat, end: nat)
    requires ChunksAt(buf, chunks, off) && end == off + SizeOfAll(chunks)
    requires HasEnd(chunks) || end + 8 > |buf|
    ensures ImageData(buf, off) == Payloads(chunks)
    decreases |chunks|
  {
    if |chunks| > 0 {
      var c, rest := chunks[0], chunks[1..];
      FirstPayload(buf, c, off);
      if c.name != IEND {
        if k :| 0 <= k < |chunks| && chunks[k].name == IEND {
          assert rest[k - 1].name == IEND;
        }
        WalkCollects(buf, rest, Next(buf, off), end);
      }
    }
  }

  lemma FirstPayload(buf: seq<byte>, c: Chunk, off: nat)
    requires ChunkAt(buf, c, off)
    ensures Ascii(buf, off + 4) == c.name
    ensures Here(buf, off) == Payload(c) && Next(buf, off) == off + SizeOf(c)
  {
    NameReadsBack(buf, c.name, off + 4);
    HeldSlice(buf, c.data, off + 8);
  }

  function PartHere(buf: seq<byte>, off: nat): seq<byte>
    requires off + 8 <= |buf|
  {
    if Ascii(buf, off + 4) == IDAT then Subarray(buf, off + 8, off + 8 + ReadBE(buf, off)) else []
  }

  lemma ConcatHere(buf: seq<byte>, off: nat)
    requires off + 8 <= |buf| && Ascii(buf, off + 4) != IEND
    ensures Concat(ImageData(buf, off)) == PartHere(buf, off) + Concat(ImageData(buf, Next(buf, off)))
  {
    var rest := ImageData(buf, Next(buf, off));
    if Ascii(buf, off + 4) == IDAT {
      assert ([PartHere(buf, off)] + rest)[1..] == rest;
    } else {
      assert [] + rest == rest;
    }
  }

  lemma CutPart(buf: seq<byte>, n: nat, off: nat, next: nat)
    requires off + 8 <= n <= |buf| && next == off + 12 + ReadBE(buf, off)
    ensures ReadBE(buf[..n], off) == ReadBE(buf, off) && Ascii(buf[..n], off + 4) == Ascii(buf, off + 4)
    ensures PartHere(buf[..n], off) <= PartHere(buf, off)
    ensures PartHere(buf[..n], off) == PartHere(buf, off) || next + 8 > n
  {
    var cut, length := buf[..n], ReadBE(buf, off);
    if off + 8 + length <= n {
      assert cut[off + 8..off + 8 + length] == buf[off + 8..off + 8 + length];
    }
  }

  lemma PrefixSum(a: seq<byte>, b: seq<byte>, x: seq<byte>, y: seq<byte>)
    requires a <= b && x <= y && (a == b || x == [])
    ensures a + x <= b + y
  {
  }

  /** One chunk more, in the cut file and in the whole one. */
  lemma CutStep(buf: seq<byte>, cut: seq<byte>, n: nat, off: nat, next: nat)
    requires n <= |buf| && cut == buf[..n] && off + 8 <= n && next == Next(buf, off) && Ascii(buf, off + 4) != IEND
    requires Concat(ImageData(cut, next)) <= Concat(ImageData(buf, next))
    ensures Concat(ImageData(cut, off)) <= Concat(ImageData(buf, off))
  {
    var rest, all := Concat(ImageData(cut, next)), Concat(ImageData(buf, next));
    CutPart(buf, n, off, next);
    ConcatHere(buf, off);
    ConcatHere(cut, off);
    assert next + 8 > n ==> rest == [];
    PrefixSum(PartHere(cut, off), PartHere(buf, off), rest, all);
  }

  /** A cut-off file yields a prefix of what the whole file yields, never something else. */
  lemma {:induction false} TruncationYieldsPrefix(buf: seq<byte>, cut: seq<byte>, n: nat, off: nat)
    requires n <= |buf| && cut == buf[..n]
    ensures Concat(ImageData(cut, off)) <= Concat(ImageData(buf, off))
    decreases |buf| + 8 - off
  {
    if off + 8 <= n && Ascii(buf, off + 4) != IEND {
      TruncationYieldsPrefix(buf, cut, n, Next(buf, off));
      CutStep(buf, cut, n, off, Next(buf, off));
    } else {
      assert off + 8 <= n ==> Ascii(cut, off + 4) == Ascii(buf, off + 4);
      assert ImageData(cut, off) == [];
    }
  }

  // ---------- Checksums ----------

  /** The checksum field of a chunk, against the checksum of its name and data as they stand. */
  ghost predicate ChecksumHolds(b: seq<byte>, n: nat)
    requires 12 + n <= |b|
  {
    ReadBE(b, 8 + n) == Crc.Crc32(b[4..8 + n])
  }

  lemma ChecksumAt(b: seq<byte>, name: Name, data: seq<byte>, sum: nat)
    requires |data| < Limit && sum < Limit && b == WriteBE(|data|) + name + data + WriteBE(sum)
    ensures ReadBE(b, 8 + |data|) == sum && b[4..8 + |data|] == name + data
  {
    var front := WriteBE(|data|) + name + data;
    HoldsParts(b, front, WriteBE(sum), 0, 8 + |data|);
    ReadsBack(b, sum, 8 + |data|);
    assert b[..8 + |data|] == front && front[4..] == name + data;
  }

  lemma DamageStays(b: seq<byte>, k: nat, x: byte, end: nat)
    requires 4 <= k < end && end + 4 <= |b|
    ensures b[4..end] == b[4..k] + [b[k]] + b[k + 1..end]
    ensures b[k := x][4..end] == b[4..k] + [x] + b[k + 1..end]
    ensures ReadBE(b[k := x], end) == ReadBE(b, end)
  {
  }

  /** A chunk as it is written holds, and damage to one byte of its name or data does not go unnoticed. */
  lemma DamageShows(c: Chunk, k: nat, x: byte)
    requires c.Fits() && 4 <= k < 8 + |c.data|
    ensures var b, n := Serialized(c), |c.data|;
            ChecksumHolds(b, n) && (x != b[k] ==> !ChecksumHolds(b[k := x], n))
  {
    var b, n := Serialized(c), |c.data|;
    var sum := Crc.Crc32(c.name + c.data);
    CrcFits(c.name + c.data);
    ChecksumAt(b, c.name, c.data, sum);
    if x != b[k] {
      DamageStays(b, k, x, 8 + n);
      Crc.SingleByteErrorDetected(b[4..k], b[k], x, b[k + 1..8 + n]);
    }
  }
}
