/**
 * The PNG encoder of the mock adapters and the truecolour decoder behind the perceptual hash.
 * Compression is a pair of functions the caller supplies.
 */
module Png {
  import opened Wrappers
  import opened Bytes
  import Crc
  import opened Filter
  import opened Chunks

  // ---------- Header ----------

  datatype Size = Size(width: nat, height: nat)

  const Signature: seq<byte> := [0x89, 0x50, 0x4e, 0x47, 0x0d, 0x0a, 0x1a, 0x0a]

  /** Only the first half of the signature is looked at. */
  function ReadPngSize(buf: seq<byte>): Option<Size> {
    if |buf| < 24 then None
    else if ReadBE(buf, 0) != 0x8950_4e47 then None
    else if Ascii(buf, 12) != IHDR then None
    else Some(Size(ReadBE(buf, 16), ReadBE(buf, 20)))
  }

  /** Dimensions are read exactly from files that start with 89 50 4E 47 and name their first chunk IHDR. */
  lemma SizeReadIff(buf: seq<byte>)
    ensures ReadPngSize(buf).Some? <==>
              && |buf| >= 24 && buf[..4] == [0x89, 0x50, 0x4e, 0x47]
              && buf[12] % 128 == 73 && buf[13] % 128 == 72 && buf[14] % 128 == 68 && buf[15] % 128 == 82
  {
    if |buf| >= 24 {
      LeadingBytes(buf);
      assert Ascii(buf, 12) == [buf[12] % 128, buf[13] % 128, buf[14] % 128, buf[15] % 128];
    }
  }

  lemma LeadingBytes(buf: seq<byte>)
    requires |buf| >= 4
    ensures ReadBE(buf, 0) == 0x8950_4e47 <==> buf[..4] == [0x89, 0x50, 0x4e, 0x47]
  {
    if ReadBE(buf, 0) == 0x8950_4e47 {
      assert buf[0] == 0x89;
      assert buf[1] == 0x50;
      assert buf[2] == 0x4e;
      assert buf[3] == 0x47;
    }
    assert buf[..4] == [buf[0], buf[1], buf[2], buf[3]];
  }

  /** Size, bit depth 8, colour type, and compression, filter and interlace methods. */
  function Header(width: nat, height: nat, colour: byte, methods: seq<byte>): (h: seq<byte>)
    requires width < Limit && height < Limit && |methods| == 3
    ensures |h| == 13
  {
    WriteBE(width) + (WriteBE(height) + ([8, colour] + methods))
  }

  ghost predicate HeaderAt(buf: seq<byte>, width: nat, height: nat, colour: byte) {
    && HoldsRow(buf, Signature, 0)
    && exists methods: seq<byte> ::
         && width < Limit && height < Limit && |methods| == 3
         && ChunkAt(buf, Chunk(IHDR, Header(width, height, colour, methods)), 8)
  }

  lemma SignatureNumber(buf: seq<byte>)
    requires HoldsRow(buf, Signature, 0)
    ensures ReadBE(buf, 0) == 0x8950_4e47
  {
    assert buf[0 + 0] == Signature[0] && buf[0 + 1] == Signature[1] && buf[0 + 2] == Signature[2]
        && buf[0 + 3] == Signature[3];
  }

  /** Whatever follows it, a header gives the dimensions, the bit depth and the colour type. */
  lemma HeaderReadsBack(buf: seq<byte>, width: nat, height: nat, colour: byte)
    requires HeaderAt(buf, width, height, colour)
    ensures ReadPngSize(buf) == Some(Size(width, height))
    ensures |buf| > 25 && buf[24] == 8 && buf[25] == colour
  {
    SignatureNumber(buf);
    var methods: seq<byte> :| width < Limit && height < Limit && |methods| == 3
      && ChunkAt(buf, Chunk(IHDR, Header(width, height, colour, methods)), 8);
    NameReadsBack(buf, IHDR, 12);
    var tail: seq<byte> := [8, colour] + methods;
    HoldsParts(buf, WriteBE(width), WriteBE(height) + tail, 16, 20);
    HoldsParts(buf, WriteBE(height), tail, 20, 24);
    ReadsBack(buf, width, 16);
    ReadsBack(buf, height, 20);
    assert buf[24 + 0] == tail[0] && buf[24 + 1] == tail[1];
  }

  // ---------- Encoding ----------

  datatype Colour = Colour(red: int, green: int, blue: int)

  /** `value & 0xff` of each component. */
  function Sample(c: Colour, i: nat): byte {
    if i == 0 then c.red % 256 else if i == 1 then c.green % 256 else c.blue % 256
  }

  ghost function PaintedRow(width: nat, y: nat, paint: (nat, nat) -> Colour): (row: seq<byte>)
    ensures |row| == 3 * width
  {
    seq<byte>(3 * width, i requires 0 <= i => Sample(paint(i / 3, y), i % 3))
  }

  ghost function Painted(width: nat, height: nat, paint: (nat, nat) -> Colour): (rows: seq<seq<byte>>)
    ensures |rows| == height && AreRows(rows, 3 * width)
  {
    seq(height, y requires 0 <= y => PaintedRow(width, y, paint))
  }

  /** Rows sent as they are, under filter type 0. */
  ghost function PlainLines(rows: seq<seq<byte>>): seq<Line> {
    seq(|rows|, y requires 0 <= y < |rows| => Line(0, rows[y]))
  }

  lemma PlainRow(above: seq<byte>, row: seq<byte>, bpp: nat)
    requires 0 < bpp && |above| == |row|
    ensures FilterLine(0, above, row, bpp) == Line(0, row)
  {
    if |row| > 0 {
      var filtered := FilterRow(0, above, row, bpp);
      forall i | 0 <= i < |row| ensures filtered[i] == row[i] {
      }
    }
  }

  lemma PlainIsFiltered(zeros: seq<byte>, rows: seq<seq<byte>>, stride: nat, bpp: nat)
    requires 0 < bpp && AreRows(rows, stride)
    requires |zeros| == |rows| && forall y :: 0 <= y < |zeros| ==> zeros[y] == 0
    ensures FilterImage(zeros, rows, stride, bpp) == PlainLines(rows)
  {
    forall y | 0 <= y < |rows|
      ensures FilterLine(zeros[y], RowAbove(rows, y, stride), rows[y], bpp) == Line(0, rows[y])
    {
      PlainRow(RowAbove(rows, y, stride), rows[y], bpp);
    }
  }

  /** A row of the buffer: filter type 0, then the samples. */
  ghost predicate FilledLine(raw: array<byte>, row: seq<byte>, at: nat)
    reads raw
  {
    at < raw.Length && raw[at] == 0 && Filled(raw, row, at + 1)
  }

  method PaintRow(raw: array<byte>, rowStart: nat, width: nat, y: nat, paint: (nat, nat) -> Colour)
    requires rowStart + 1 + 3 * width <= raw.Length
    modifies raw
    ensures FilledLine(raw, PaintedRow(width, y, paint), rowStart)
    ensures forall k :: 0 <= k < rowStart ==> raw[k] == old(raw[k])
  {
    raw[rowStart] := 0;
    var x := 0;
    while x < width
      invariant 0 <= x <= width && raw[rowStart] == 0
      invariant forall i :: 0 <= i < 3 * x ==> raw[rowStart + 1 + i] == Sample(paint(i / 3, y), i % 3)
      invariant forall k :: 0 <= k < rowStart ==> raw[k] == old(raw[k])
    {
      var colour := paint(x, y);
      var o := rowStart + 1 + x * 3;
      raw[o] := colour.red % 256;
      raw[o + 1] := colour.green % 256;
      raw[o + 2] := colour.blue % 256;
      x := x + 1;
    }
  }

  /** The uncompressed data stream of the picture. */
  ghost predicate IsRaw(raw: seq<byte>, width: nat, height: nat, paint: (nat, nat) -> Colour) {
    |raw| == Offset(height, 3 * width + 1) && HoldsLines(raw, PlainLines(Painted(width, height, paint)), 3 * width)
  }

  /** Lines one after another. */
  ghost function Stream(lines: seq<Line>, stride: nat, n: nat): (raw: seq<byte>)
    requires n <= |lines| && forall y :: 0 <= y < n ==> |lines[y].bytes| == stride
    ensures |raw| == Offset(n, stride + 1)
  {
    if n == 0 then [] else Stream(lines, stride, n - 1) + ([lines[n - 1].filter] + lines[n - 1].bytes)
  }

  lemma {:induction false} StreamHolds(lines: seq<Line>, stride: nat, n: nat, y: nat)
    requires y < n <= |lines| && forall k :: 0 <= k < n ==> |lines[k].bytes| == stride
    ensures HoldsLine(Stream(lines, stride, n), lines[y], Offset(y, stride + 1))
    decreases n
  {
    var before, last := Stream(lines, stride, n - 1), [lines[n - 1].filter] + lines[n - 1].bytes;
    var at := Offset(y, stride + 1);
    if y < n - 1 {
      StreamHolds(lines, stride, n - 1, y);
      LongerHolds(before, last, lines[y], at);
    } else {
      LastHolds(before, lines[y]);
    }
  }

  lemma LongerHolds(raw: seq<byte>, more: seq<byte>, line: Line, at: nat)
    requires HoldsLine(raw, line, at)
    ensures HoldsLine(raw + more, line, at)
  {
    forall i | 0 <= i < |line.bytes| ensures (raw + more)[at + 1 + i] == line.bytes[i] {
      assert raw[at + 1 + i] == line.bytes[i];
    }
  }

  lemma LastHolds(raw: seq<byte>, line: Line)
    ensures HoldsLine(raw + ([line.filter] + line.bytes), line, |raw|)
  {
    var all := raw + ([line.filter] + line.bytes);
    forall i | 0 <= i < |line.bytes| ensures all[|raw| + 1 + i] == line.bytes[i] {
      assert all[|raw| + (1 + i)] == ([line.filter] + line.bytes)[1 + i];
    }
  }

  /** The uncompressed data stream of a picture. */
  ghost function RawOf(width: nat, height: nat, paint: (nat, nat) -> Colour): seq<byte> {
    Stream(PlainLines(Painted(width, height, paint)), 3 * width, height)
  }

  lemma RawOfIsRaw(width: nat, height: nat, paint: (nat, nat) -> Colour)
    ensures IsRaw(RawOf(width, height, paint), width, height, paint)
  {
    var lines := PlainLines(Painted(width, height, paint));
    forall y | 0 <= y < height
      ensures HoldsLine(RawOf(width, height, paint), lines[y], Offset(y, 3 * width + 1))
    {
      StreamHolds(lines, 3 * width, height, y);
    }
  }

  /** There is only one such stream. */
  lemma RawUnique(a: seq<byte>, b: seq<byte>, width: nat, height: nat, paint: (nat, nat) -> Colour)
    requires IsRaw(a, width, height, paint) && IsRaw(b, width, height, paint)
    ensures a == b
  {
    SameLines(a, b, PlainLines(Painted(width, height, paint)), 3 * width, height);
  }

  lemma {:induction false} SameLines(a: seq<byte>, b: seq<byte>, lines: seq<Line>, stride: nat, n: nat)
    requires n <= |lines| && HoldsLines(a, lines, stride) && HoldsLines(b, lines, stride)
    requires Offset(n, stride + 1) <= |a| && Offset(n, stride + 1) <= |b|
    ensures forall k :: 0 <= k < Offset(n, stride + 1) ==> a[k] == b[k]
    decreases n
  {
    if n > 0 {
      SameLines(a, b, lines, stride, n - 1);
      var at, line := Offset(n - 1, stride + 1), lines[n - 1];
      assert HoldsLine(a, line, at) && HoldsLine(b, line, at);
      forall k | at <= k < at + 1 + stride ensures a[k] == b[k] {
        if k > at {
          assert a[at + 1 + (k - at - 1)] == line.bytes[k - at - 1];
          assert b[at + 1 + (k - at - 1)] == line.bytes[k - at - 1];
        }
      }
    }
  }

  ghost predicate FilledLines(raw: array<byte>, rows: seq<seq<byte>>, size: nat, n: nat)
    requires n <= |rows|
    reads raw
  {
    forall y :: 0 <= y < n ==> FilledLine(raw, rows[y], Offset(y, size))
  }

  /** The lines written stay when only bytes behind them change. */
  lemma LinesStay(before: seq<byte>, raw: array<byte>, rows: seq<seq<byte>>, size: nat, n: nat)
    requires n <= |rows| && (forall y :: 0 <= y < n ==> |rows[y]| + 1 == size) && |before| == raw.Length
    requires forall y :: 0 <= y < n ==> HoldsLine(before, Line(0, rows[y]), Offset(y, size))
    requires forall k :: 0 <= k < Offset(n, size) && k < raw.Length ==> raw[k] == before[k]
    ensures FilledLines(raw, rows, size, n)
  {
    forall y | 0 <= y < n ensures FilledLine(raw, rows[y], Offset(y, size)) {
      OffsetGrows(y + 1, n, size);
      assert HoldsLine(before, Line(0, rows[y]), Offset(y, size));
    }
  }

  lemma NextLine(raw: array<byte>, rows: seq<seq<byte>>, size: nat, n: nat)
    requires n < |rows| && FilledLines(raw, rows, size, n) && FilledLine(raw, rows[n], Offset(n, size))
    ensures FilledLines(raw, rows, size, n + 1)
  {
  }

  lemma SnapshotLines(raw: array<byte>, rows: seq<seq<byte>>, size: nat, n: nat)
    requires n <= |rows| && FilledLines(raw, rows, size, n)
    ensures forall y :: 0 <= y < n ==> HoldsLine(raw[..], Line(0, rows[y]), Offset(y, size))
  {
    forall y | 0 <= y < n ensures HoldsLine(raw[..], Line(0, rows[y]), Offset(y, size)) {
      assert FilledLine(raw, rows[y], Offset(y, size));
    }
  }

  /** The body of the outer loop: row y. */
  method PaintLine(raw: array<byte>, width: nat, y: nat, paint: (nat, nat) -> Colour, ghost rows: seq<seq<byte>>)
    requires Offset(y + 1, 3 * width + 1) <= raw.Length && y < |rows| && AreRows(rows, 3 * width)
    requires rows[y] == PaintedRow(width, y, paint)
    requires FilledLines(raw, rows, 3 * width + 1, y)
    modifies raw
    ensures FilledLines(raw, rows, 3 * width + 1, y + 1)
  {
    var rowStart := RowStart(width, y);
    SnapshotLines(raw, rows, 3 * width + 1, y);
    ghost var before := raw[..];
    PaintRow(raw, rowStart, width, y, paint);
    LinesStay(before, raw, rows, 3 * width + 1, y);
    NextLine(raw, rows, 3 * width + 1, y);
  }

  method RowStart(width: nat, y: nat) returns (at: nat)
    ensures at == Offset(y, 3 * width + 1)
  {
    OffsetIs(y, width * 3 + 1);
    at := y * (width * 3 + 1);
  }

  method PaintRaw(width: nat, height: nat, paint: (nat, nat) -> Colour) returns (raw: array<byte>)
    ensures fresh(raw) && IsRaw(raw[..], width, height, paint)
  {
    var stride := width * 3;
    OffsetIs(height, stride + 1);
    raw := new byte[height * (stride + 1)](i => 0);
    PaintLines(raw, width, height, paint, Painted(width, height, paint));
    FilledIsRaw(raw, width, height, paint, Painted(width, height, paint));
  }

  method PaintLines(raw: array<byte>, width: nat, height: nat, paint: (nat, nat) -> Colour, ghost rows: seq<seq<byte>>)
    requires raw.Length == Offset(height, 3 * width + 1) && rows == Painted(width, height, paint)
    modifies raw
    ensures FilledLines(raw, rows, 3 * width + 1, height)
  {
    var y := 0;
    while y < height
      invariant 0 <= y <= height
      invariant FilledLines(raw, rows, 3 * width + 1, y)
    {
      OffsetGrows(y + 1, height, 3 * width + 1);
      PaintLine(raw, width, y, paint, rows);
      y := y + 1;
    }
  }

  lemma FilledIsRaw(raw: array<byte>, width: nat, height: nat, paint: (nat, nat) -> Colour, rows: seq<seq<byte>>)
    requires rows == Painted(width, height, paint)
    requires raw.Length == Offset(height, 3 * width + 1) && FilledLines(raw, rows, 3 * width + 1, height)
    ensures IsRaw(raw[..], width, height, paint)
  {
    var lines := PlainLines(rows);
    forall y | 0 <= y < height
      ensures HoldsLine(raw[..], lines[y], Offset(y, 3 * width + 1))
    {
      assert FilledLine(raw, rows[y], Offset(y, 3 * width + 1));
    }
  }

  function FileChunks(width: nat, height: nat, data: seq<byte>): (chunks: seq<Chunk>)
    requires width < Limit && height < Limit
    ensures |chunks| == 3 && (|data| < Limit ==> AllFit(chunks))
  {
    [Chunk(IHDR, Header(width, height, 2, [0, 0, 0])), Chunk(IDAT, data), Chunk(IEND, [])]
  }

  ghost predicate Encodable(width: nat, height: nat, data: seq<byte>) {
    width < Limit && height < Limit && |data| < Limit
  }

  method WriteFile(width: nat, height: nat, data: seq<byte>) returns (file: seq<byte>)
    requires Encodable(width, height, data)
    ensures file == Signature + SerializedAll(FileChunks(width, height, data))
  {
    var chunks := FileChunks(width, height, data);
    var table := Crc.CrcTable();
    var header := WriteChunk(table, chunks[0]);
    var image := WriteChunk(table, chunks[1]);
    var end := WriteChunk(table, chunks[2]);
    file := Signature + (header + (image + end));
    FileOfThree(chunks, header, image, end);
  }

  lemma FileOfThree(chunks: seq<Chunk>, header: seq<byte>, image: seq<byte>, end: seq<byte>)
    requires |chunks| == 3 && AllFit(chunks)
    requires header == Serialized(chunks[0]) && image == Serialized(chunks[1]) && end == Serialized(chunks[2])
    ensures header + (image + end) == SerializedAll(chunks)
  {
    SerializedThree(chunks);
  }

  lemma SerializedThree(chunks: seq<Chunk>)
    requires |chunks| == 3 && AllFit(chunks)
    ensures SerializedAll(chunks) == Serialized(chunks[0]) + (Serialized(chunks[1]) + Serialized(chunks[2]))
  {
    var tail := chunks[1..];
    var last := tail[1..];
    assert tail[0] == chunks[1] && last[0] == chunks[2];
    SerializedOne(last);
    assert SerializedAll(tail) == Serialized(chunks[1]) + SerializedAll(last);
  }

  lemma SerializedOne(chunks: seq<Chunk>)
    requires |chunks| == 1 && AllFit(chunks)
    ensures SerializedAll(chunks) == Serialized(chunks[0])
  {
    assert chunks[1..] == [] && Serialized(chunks[0]) + [] == Serialized(chunks[0]);
  }

  /** The file of a picture; a number that does not fit its four bytes makes the write fail. */
  ghost function Encoded(width: nat, height: nat, paint: (nat, nat) -> Colour,
                         deflate: seq<byte> -> seq<byte>): Option<seq<byte>> {
    var data := deflate(RawOf(width, height, paint));
    if Encodable(width, height, data) then Some(Signature + SerializedAll(FileChunks(width, height, data))) else None
  }

  method EncodePng(width: nat, height: nat, paint: (nat, nat) -> Colour, deflate: seq<byte> -> seq<byte>)
    returns (file: Option<seq<byte>>)
    ensures file == Encoded(width, height, paint, deflate)
  {
    var scanlines := PaintRaw(width, height, paint);
    RawOfIsRaw(width, height, paint);
    RawUnique(scanlines[..], RawOf(width, height, paint), width, height, paint);
    if width >= Limit || height >= Limit {
      return None;
    }
    var data := deflate(scanlines[..]);
    if |data| >= Limit {
      return None;
    }
    var bytes := WriteFile(width, height, data);
    file := Some(bytes);
  }
}
