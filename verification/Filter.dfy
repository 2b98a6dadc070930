/**
 * Scanline filters of PNG (section 6 of RFC 2083) and their reconstruction in place.
 */
module Filter {
  import opened Bytes

  // ---------- Predictors ----------

  function Abs(x: int): nat { if x < 0 then -x else x }

  function Paeth(a: byte, b: byte, c: byte): byte {
    var p := a + b - c;
    var pa, pb, pc := Abs(p - a), Abs(p - b), Abs(p - c);
    if pa <= pb && pa <= pc then a else if pb <= pc then b else c
  }

  /** n is candidate k, which is nearest to p, and the first such. */
  ghost predicate FirstNearest(n: byte, near: seq<byte>, p: int, k: nat) {
    && k < |near| && n == near[k]
    && (forall j :: 0 <= j < |near| ==> Abs(p - n) <= Abs(p - near[j]))
    && (forall j :: 0 <= j < k ==> Abs(p - n) < Abs(p - near[j]))
  }

  /** n is the nearest of a, b, c to a + b - c, the first of them on a tie. */
  ghost predicate Nearest(n: byte, a: byte, b: byte, c: byte) {
    var near, p := [a, b, c], a + b - c;
    FirstNearest(n, near, p, 0) || FirstNearest(n, near, p, 1) || FirstNearest(n, near, p, 2)
  }

  lemma FirstOfThree(near: seq<byte>, p: int, k: nat)
    requires |near| == 3 && k < 3
    requires k == 0 ==> Abs(p - near[0]) <= Abs(p - near[1]) && Abs(p - near[0]) <= Abs(p - near[2])
    requires k == 1 ==> Abs(p - near[1]) < Abs(p - near[0]) && Abs(p - near[1]) <= Abs(p - near[2])
    requires k == 2 ==> Abs(p - near[2]) < Abs(p - near[0]) && Abs(p - near[2]) < Abs(p - near[1])
    ensures FirstNearest(near[k], near, p, k)
  {
  }

  /** Section 6.6 of RFC 2083. */
  lemma PaethIsNearest(a: byte, b: byte, c: byte)
    ensures Nearest(Paeth(a, b, c), a, b, c)
  {
    var near, p := [a, b, c], a + b - c;
    var pa, pb, pc := Abs(p - a), Abs(p - b), Abs(p - c);
    FirstOfThree(near, p, if pa <= pb && pa <= pc then 0 else if pb <= pc then 1 else 2);
  }

  lemma OneNearest(n: byte, m: byte, near: seq<byte>, p: int, k: nat, l: nat)
    requires FirstNearest(n, near, p, k) && FirstNearest(m, near, p, l)
    ensures n == m
  {
  }

  lemma NearestIsPaeth(n: byte, a: byte, b: byte, c: byte)
    requires Nearest(n, a, b, c)
    ensures n == Paeth(a, b, c)
  {
    var near, p := [a, b, c], a + b - c;
    PaethIsNearest(a, b, c);
    var k: nat, l: nat :| k < 3 && l < 3 && FirstNearest(n, near, p, k) && FirstNearest(Paeth(a, b, c), near, p, l);
    OneNearest(n, Paeth(a, b, c), near, p, k, l);
  }

  const FilterTypes: nat := 5

  /** What filter type f adds to a byte, from its neighbours left, above and above left. */
  function Predict(f: nat, a: byte, b: byte, c: byte): byte
    requires f < FilterTypes
  {
    if f == 0 then 0
    else if f == 1 then a
    else if f == 2 then b
    else if f == 3 then (a + b) / 2
    else Paeth(a, b, c)
  }

  /** The byte one pixel to the left, zero outside the row. */
  function Left(row: seq<byte>, i: nat, bpp: nat): byte
    requires 0 < bpp && i <= |row|
  {
    if i >= bpp then row[i - bpp] else 0
  }

  // ---------- One row ----------

  /** The filtered form of a row. */
  function FilterRow(f: nat, prev: seq<byte>, row: seq<byte>, bpp: nat): (r: seq<byte>)
    requires f < FilterTypes && 0 < bpp && |prev| == |row|
    ensures |r| == |row|
  {
    seq(|row|, i requires 0 <= i < |row| =>
      (row[i] - Predict(f, Left(row, i, bpp), prev[i], Left(prev, i, bpp))) % 256)
  }

  /** Reconstruction, left to right. */
  function ReconRow(f: nat, prev: seq<byte>, filtered: seq<byte>, bpp: nat): (r: seq<byte>)
    requires f < FilterTypes && 0 < bpp && |filtered| <= |prev|
    ensures |r| == |filtered|
    decreases |filtered|
  {
    if |filtered| == 0 then [] else
      var i := |filtered| - 1;
      var before := ReconRow(f, prev, filtered[..i], bpp);
      before + [(filtered[i] + Predict(f, Left(before, i, bpp), prev[i], Left(prev, i, bpp))) % 256]
  }

  lemma PutBack(x: byte, p: byte)
    ensures ((x - p) % 256 + p) % 256 == x
  {}

  lemma {:induction false} ReconPrefix(f: nat, prev: seq<byte>, row: seq<byte>, bpp: nat, n: nat)
    requires f < FilterTypes && 0 < bpp && |prev| == |row| && n <= |row|
    ensures ReconRow(f, prev, FilterRow(f, prev, row, bpp)[..n], bpp) == row[..n]
    decreases n
  {
    if n > 0 {
      ReconPrefix(f, prev, row, bpp, n - 1);
      var filtered := FilterRow(f, prev, row, bpp);
      assert filtered[..n][..n - 1] == filtered[..n - 1];
      PutBack(row[n - 1], Predict(f, Left(row, n - 1, bpp), prev[n - 1], Left(prev, n - 1, bpp)));
      assert Left(row[..n - 1], n - 1, bpp) == Left(row, n - 1, bpp);
      assert row[..n] == row[..n - 1] + [row[n - 1]];
    }
  }

  lemma ReconInvertsFilter(f: nat, prev: seq<byte>, row: seq<byte>, bpp: nat)
    requires f < FilterTypes && 0 < bpp && |prev| == |row|
    ensures ReconRow(f, prev, FilterRow(f, prev, row, bpp), bpp) == row
  {
    ReconPrefix(f, prev, row, bpp, |row|);
    assert FilterRow(f, prev, row, bpp)[..|row|] == FilterRow(f, prev, row, bpp);
  }

  lemma {:induction false} ReconAt(f: nat, prev: seq<byte>, filtered: seq<byte>, bpp: nat, i: nat)
    requires f < FilterTypes && 0 < bpp && |filtered| <= |prev| && i < |filtered|
    ensures var r := ReconRow(f, prev, filtered, bpp);
            r[i] == (filtered[i] + Predict(f, Left(r, i, bpp), prev[i], Left(prev, i, bpp))) % 256
    decreases |filtered|
  {
    var last := |filtered| - 1;
    if i < last {
      ReconAt(f, prev, filtered[..last], bpp, i);
    }
  }

  /** Nothing is lost the other way: every filtered row is the filtered form of its reconstruction. */
  lemma FilterInvertsRecon(f: nat, prev: seq<byte>, filtered: seq<byte>, bpp: nat)
    requires f < FilterTypes && 0 < bpp && |prev| == |filtered|
    ensures FilterRow(f, prev, ReconRow(f, prev, filtered, bpp), bpp) == filtered
  {
    var row := ReconRow(f, prev, filtered, bpp);
    var again := FilterRow(f, prev, row, bpp);
    forall i | 0 <= i < |filtered| ensures again[i] == filtered[i] {
      ReconAt(f, prev, filtered, bpp, i);
      TakeBack(filtered[i], Predict(f, Left(row, i, bpp), prev[i], Left(prev, i, bpp)));
    }
  }

  lemma TakeBack(x: byte, p: byte)
    ensures ((x + p) % 256 - p) % 256 == x
  {}

  // ---------- The equations of section 6 ----------

  /** r is x and the nearest of its neighbours to left + up - up left, modulo 256. */
  ghost predicate PaethSum(x: byte, r: byte, l: byte, u: byte, v: byte) {
    exists n: byte :: Nearest(n, l, u, v) && r == (x + n) % 256
  }

  lemma PaethSumIs(x: byte, r: byte, l: byte, u: byte, v: byte)
    ensures PaethSum(x, r, l, u, v) <==> r == (x + Paeth(l, u, v)) % 256
  {
    PaethIsNearest(l, u, v);
    if PaethSum(x, r, l, u, v) {
      var n: byte :| Nearest(n, l, u, v) && r == (x + n) % 256;
      NearestIsPaeth(n, l, u, v);
    }
  }

  /** Sections 6.2 to 6.6 of RFC 2083: byte r from the filtered byte x and its neighbours left, up and up left. */
  ghost predicate ByteEquation(f: nat, x: byte, r: byte, l: byte, u: byte, v: byte) {
    && (f == 0 ==> r == x)
    && (f == 1 ==> r == (x + l) % 256)
    && (f == 2 ==> r == (x + u) % 256)
    && (f == 3 ==> r == (x + (l + u) / 2) % 256)
    && (f == 4 ==> PaethSum(x, r, l, u, v))
  }

  /** Byte i of a row obeys its filter type's equation, with zeros left of the row. */
  ghost predicate ObeysAt(f: nat, prev: seq<byte>, filtered: seq<byte>, row: seq<byte>, bpp: nat, i: nat)
    requires i < |row| == |filtered| == |prev|
  {
    var l, v := if i >= bpp then row[i - bpp] else 0, if i >= bpp then prev[i - bpp] else 0;
    ByteEquation(f, filtered[i], row[i], l, prev[i], v)
  }

  ghost predicate RowEquations(f: nat, prev: seq<byte>, filtered: seq<byte>, row: seq<byte>, bpp: nat) {
    |row| == |filtered| == |prev| && forall i :: 0 <= i < |row| ==> ObeysAt(f, prev, filtered, row, bpp, i)
  }

  /** The equations say what the predictors compute. */
  lemma ObeysIsPredicted(f: nat, x: byte, r: byte, l: byte, u: byte, v: byte)
    requires f < FilterTypes
    ensures ByteEquation(f, x, r, l, u, v) <==> r == (x + Predict(f, l, u, v)) % 256
  {
    if f == 4 { PaethSumIs(x, r, l, u, v); }
  }

  lemma ReconObeys(f: nat, prev: seq<byte>, filtered: seq<byte>, bpp: nat)
    requires f < FilterTypes && 0 < bpp && |filtered| == |prev|
    ensures RowEquations(f, prev, filtered, ReconRow(f, prev, filtered, bpp), bpp)
  {
    var row := ReconRow(f, prev, filtered, bpp);
    forall i | 0 <= i < |row| ensures ObeysAt(f, prev, filtered, row, bpp, i) {
      ReconAt(f, prev, filtered, bpp, i);
      ObeysIsPredicted(f, filtered[i], row[i], Left(row, i, bpp), prev[i], Left(prev, i, bpp));
    }
  }

  /** The equations decide the row: they hold of the reconstruction and of nothing else. */
  lemma ReconIffObeys(f: nat, prev: seq<byte>, filtered: seq<byte>, row: seq<byte>, bpp: nat)
    requires f < FilterTypes && 0 < bpp && |filtered| == |prev|
    ensures row == ReconRow(f, prev, filtered, bpp) <==> RowEquations(f, prev, filtered, row, bpp)
  {
    ReconObeys(f, prev, filtered, bpp);
    if RowEquations(f, prev, filtered, row, bpp) {
      forall i | 0 <= i < |row| ensures row[i] == ReconRow(f, prev, filtered, bpp)[i] {
        SameByte(f, prev, filtered, row, ReconRow(f, prev, filtered, bpp), bpp, i);
      }
    }
  }

  lemma {:induction false} SameByte(f: nat, prev: seq<byte>, filtered: seq<byte>, row: seq<byte>, other: seq<byte>,
                                    bpp: nat, i: nat)
    requires f < FilterTypes && 0 < bpp && i < |filtered|
    requires RowEquations(f, prev, filtered, row, bpp) && RowEquations(f, prev, filtered, other, bpp)
    ensures row[i] == other[i]
    decreases i
  {
    if i >= bpp { SameByte(f, prev, filtered, row, other, bpp, i - bpp); }
    assert ObeysAt(f, prev, filtered, row, bpp, i) && ObeysAt(f, prev, filtered, other, bpp, i);
    var l, v := if i >= bpp then row[i - bpp] else 0, if i >= bpp then prev[i - bpp] else 0;
    ObeysIsPredicted(f, filtered[i], row[i], l, prev[i], v);
    ObeysIsPredicted(f, filtered[i], other[i], l, prev[i], v);
  }

  // ---------- A whole image ----------

  /** A row of the data stream: its filter type and its filtered bytes. */
  datatype Line = Line(filter: byte, bytes: seq<byte>)

  function ZeroRow(n: nat): (r: seq<byte>)
    ensures |r| == n
  {
    seq(n, i => 0)
  }

  ghost predicate AreRows(rows: seq<seq<byte>>, stride: nat) {
    forall y :: 0 <= y < |rows| ==> |rows[y]| == stride
  }

  function RowAbove(rows: seq<seq<byte>>, y: nat, stride: nat): (row: seq<byte>)
    requires y <= |rows| && AreRows(rows, stride)
    ensures |row| == stride
  {
    if y > 0 then rows[y - 1] else ZeroRow(stride)
  }

  /** The filter types of the first n rows are known; a row without bytes needs none. */
  ghost predicate Readable(lines: seq<Line>, stride: nat, n: nat)
    requires n <= |lines|
  {
    forall y :: 0 <= y < n ==>
      |lines[y].bytes| == stride && (lines[y].filter < FilterTypes || stride == 0)
  }

  function FilterLine(filter: byte, above: seq<byte>, row: seq<byte>, bpp: nat): Line
    requires 0 < bpp && |above| == |row| && (filter < FilterTypes || |row| == 0)
  {
    Line(filter, if |row| == 0 then [] else FilterRow(filter, above, row, bpp))
  }

  function ReconLine(line: Line, above: seq<byte>, bpp: nat): (row: seq<byte>)
    requires 0 < bpp && |above| == |line.bytes| && (line.filter < FilterTypes || |line.bytes| == 0)
    ensures |row| == |line.bytes|
  {
    if |line.bytes| == 0 then [] else ReconRow(line.filter, above, line.bytes, bpp)
  }

  /** Filtering: each row by its own filter type, against the row above as it was before filtering. */
  function FilterImage(filters: seq<byte>, rows: seq<seq<byte>>, stride: nat, bpp: nat): (lines: seq<Line>)
    requires 0 < bpp && |filters| == |rows| && AreRows(rows, stride)
    requires forall y :: 0 <= y < |filters| ==> filters[y] < FilterTypes || stride == 0
    ensures |lines| == |rows| && Readable(lines, stride, |lines|)
  {
    seq(|rows|, y requires 0 <= y < |rows| => FilterLine(filters[y], RowAbove(rows, y, stride), rows[y], bpp))
  }

  /** Reconstruction of the first n rows. */
  function Unfilter(lines: seq<Line>, stride: nat, bpp: nat, n: nat): (rows: seq<seq<byte>>)
    requires 0 < bpp && n <= |lines| && Readable(lines, stride, n)
    ensures |rows| == n && AreRows(rows, stride)
  {
    if n == 0 then [] else
      var rows := Unfilter(lines, stride, bpp, n - 1);
      rows + [ReconLine(lines[n - 1], RowAbove(rows, n - 1, stride), bpp)]
  }

  lemma ReconInvertsLine(filter: byte, above: seq<byte>, row: seq<byte>, bpp: nat)
    requires 0 < bpp && |above| == |row| && (filter < FilterTypes || |row| == 0)
    ensures ReconLine(FilterLine(filter, above, row, bpp), above, bpp) == row
  {
    if |row| > 0 { ReconInvertsFilter(filter, above, row, bpp); }
  }

  lemma {:induction false} UnfilterAt(lines: seq<Line>, stride: nat, bpp: nat, n: nat, y: nat)
    requires 0 < bpp && y < n <= |lines| && Readable(lines, stride, n)
    ensures var rows := Unfilter(lines, stride, bpp, n);
            rows[y] == ReconLine(lines[y], RowAbove(rows, y, stride), bpp)
    decreases n
  {
    if y < n - 1 {
      UnfilterAt(lines, stride, bpp, n - 1, y);
    }
  }

  /** Row k of `again` is reconstructed from the line of row k of `rows`, and the row above it. */
  ghost predicate Restored(filters: seq<byte>, rows: seq<seq<byte>>, again: seq<seq<byte>>, stride: nat, bpp: nat,
                           k: nat)
    requires 0 < bpp && |filters| == |rows| == |again| && AreRows(rows, stride) && AreRows(again, stride) && k < |rows|
    requires filters[k] < FilterTypes || stride == 0
  {
    var line := FilterLine(filters[k], RowAbove(rows, k, stride), rows[k], bpp);
    again[k] == ReconLine(line, RowAbove(again, k, stride), bpp)
  }

  /** Rows that each come from their line and the row above are the rows the lines were made of. */
  lemma {:induction false} RowComesBack(filters: seq<byte>, rows: seq<seq<byte>>, again: seq<seq<byte>>, stride: nat,
                                        bpp: nat, y: nat)
    requires 0 < bpp && |filters| == |rows| == |again| && AreRows(rows, stride) && AreRows(again, stride) && y < |rows|
    requires forall k :: 0 <= k < |filters| ==> filters[k] < FilterTypes || stride == 0
    requires forall k :: 0 <= k < |rows| ==> Restored(filters, rows, again, stride, bpp, k)
    ensures again[y] == rows[y]
    decreases y
  {
    if y > 0 {
      RowComesBack(filters, rows, again, stride, bpp, y - 1);
    }
    assert RowAbove(again, y, stride) == RowAbove(rows, y, stride);
    RestoredRow(filters, rows, again, stride, bpp, y);
  }

  lemma RestoredRow(filters: seq<byte>, rows: seq<seq<byte>>, again: seq<seq<byte>>, stride: nat, bpp: nat, y: nat)
    requires 0 < bpp && |filters| == |rows| == |again| && AreRows(rows, stride) && AreRows(again, stride) && y < |rows|
    requires filters[y] < FilterTypes || stride == 0
    requires Restored(filters, rows, again, stride, bpp, y) && RowAbove(again, y, stride) == RowAbove(rows, y, stride)
    ensures again[y] == rows[y]
  {
    ReconInvertsLine(filters[y], RowAbove(rows, y, stride), rows[y], bpp);
  }

  /** For every choice of filters, row by row, reconstruction gives back the image. */
  lemma UnfilterInverts(filters: seq<byte>, rows: seq<seq<byte>>, stride: nat, bpp: nat)
    requires 0 < bpp && |filters| == |rows| && AreRows(rows, stride)
    requires forall y :: 0 <= y < |filters| ==> filters[y] < FilterTypes || stride == 0
    ensures Unfilter(FilterImage(filters, rows, stride, bpp), stride, bpp, |rows|) == rows
  {
    var lines := FilterImage(filters, rows, stride, bpp);
    var again := Unfilter(lines, stride, bpp, |lines|);
    forall y | 0 <= y < |rows| ensures Restored(filters, rows, again, stride, bpp, y) {
      UnfilterAt(lines, stride, bpp, |lines|, y);
    }
    forall y | 0 <= y < |rows| ensures again[y] == rows[y] {
      RowComesBack(filters, rows, again, stride, bpp, y);
    }
  }

  /** And filtering the reconstruction with the same filter types gives back the data. */
  lemma FilterInverts(lines: seq<Line>, stride: nat, bpp: nat)
    requires 0 < bpp && Readable(lines, stride, |lines|)
    ensures var rows := Unfilter(lines, stride, bpp, |lines|);
            var filters := seq(|lines|, y requires 0 <= y < |lines| => lines[y].filter);
            FilterImage(filters, rows, stride, bpp) == lines
  {
    var rows := Unfilter(lines, stride, bpp, |lines|);
    forall y | 0 <= y < |lines|
      ensures FilterLine(lines[y].filter, RowAbove(rows, y, stride), rows[y], bpp) == lines[y]
    {
      UnfilterAt(lines, stride, bpp, |lines|, y);
      if stride > 0 { FilterInvertsRecon(lines[y].filter, RowAbove(rows, y, stride), lines[y].bytes, bpp); }
    }
  }

  /** Row y obeys its own filter type's equations, against the row above, and zeros above the first. */
  ghost predicate LineObeys(line: Line, rows: seq<seq<byte>>, stride: nat, bpp: nat, y: nat)
    requires y < |rows|
  {
    RowEquations(line.filter, if y > 0 then rows[y - 1] else ZeroRow(stride), line.bytes, rows[y], bpp)
  }

  ghost predicate ImageEquations(lines: seq<Line>, rows: seq<seq<byte>>, stride: nat, bpp: nat) {
    |rows| == |lines| && forall y :: 0 <= y < |rows| ==> LineObeys(lines[y], rows, stride, bpp, y)
  }

  lemma UnfilterObeys(lines: seq<Line>, stride: nat, bpp: nat)
    requires 0 < bpp && Readable(lines, stride, |lines|)
    ensures ImageEquations(lines, Unfilter(lines, stride, bpp, |lines|), stride, bpp)
  {
    var rows := Unfilter(lines, stride, bpp, |lines|);
    forall y | 0 <= y < |rows| ensures LineObeys(lines[y], rows, stride, bpp, y) {
      UnfilterAt(lines, stride, bpp, |lines|, y);
      if stride > 0 { ReconObeys(lines[y].filter, RowAbove(rows, y, stride), lines[y].bytes, bpp); }
    }
  }

  // ---------- Layout in buffers ----------

  /** Where row y starts: the sum of the rows before it. */
  function Offset(y: nat, size: nat): nat {
    if y == 0 then 0 else Offset(y - 1, size) + size
  }

  lemma {:induction false} OffsetIs(y: nat, size: nat)
    ensures y * size == Offset(y, size)
  {
    if y > 0 {
      OffsetIs(y - 1, size);
      TimesNext(size, y - 1);
    }
  }

  lemma TimesNext(n: nat, y: nat)
    ensures (y + 1) * n == y * n + n
  {}

  lemma {:induction false} OffsetGrows(y: nat, z: nat, size: nat)
    requires y <= z
    ensures Offset(y, size) <= Offset(z, size)
    decreases z
  {
    if y < z {
      OffsetGrows(y, z - 1, size);
    }
  }

  /** The buffer holds row y, byte by byte. */
  ghost predicate HoldsRow(buf: seq<byte>, row: seq<byte>, at: nat) {
    at + |row| <= |buf| && forall i :: 0 <= i < |row| ==> buf[at + i] == row[i]
  }

  ghost predicate HoldsRows(buf: seq<byte>, rows: seq<seq<byte>>, stride: nat) {
    forall y :: 0 <= y < |rows| ==> HoldsRow(buf, rows[y], Offset(y, stride))
  }

  /** The data stream holds a line: the filter type, then the bytes. */
  ghost predicate HoldsLine(raw: seq<byte>, line: Line, at: nat) {
    at < |raw| && raw[at] == line.filter && HoldsRow(raw, line.bytes, at + 1)
  }

  ghost predicate HoldsLines(raw: seq<byte>, lines: seq<Line>, stride: nat) {
    forall y :: 0 <= y < |lines| ==> |lines[y].bytes| == stride && HoldsLine(raw, lines[y], Offset(y, stride + 1))
  }

  // ---------- The program's loops ----------

  /** HoldsRow, for the buffer being filled. */
  ghost predicate Filled(recon: array<byte>, row: seq<byte>, at: nat)
    reads recon
  {
    at + |row| <= recon.Length && forall i :: 0 <= i < |row| ==> recon[at + i] == row[i]
  }

  /**
   * With the row above and the first i bytes of this row in the buffer, the byte the inner loop
   * computes from its neighbours by offset is the next byte of the reconstructed row.
   */
  lemma NextByte(recon: array<byte>, dst: nat, f: nat, above: seq<byte>, filtered: seq<byte>, row: seq<byte>,
                 y: nat, i: nat, bpp: nat, x: byte, a: byte, b: byte, c: byte)
    requires f < FilterTypes && 0 < bpp && i < |filtered| == |above| && dst + i <= recon.Length
    requires row == ReconRow(f, above, filtered, bpp)
    requires if y > 0 then |above| <= dst && Filled(recon, above, dst - |above|) else above == ZeroRow(|above|)
    requires forall k :: 0 <= k < i ==> recon[dst + k] == row[k]
    requires x == filtered[i]
    requires a == if i >= bpp then recon[dst + i - bpp] else 0
    requires b == if y > 0 then recon[dst - |above| + i] else 0
    requires c == if y > 0 && i >= bpp then recon[dst - |above| + i - bpp] else 0
    ensures row[i] == (x + Predict(f, a, b, c)) % 256
  {
    ReconAt(f, above, filtered, bpp, i);
    assert i >= bpp ==> recon[dst + (i - bpp)] == row[i - bpp];
    assert y > 0 ==> recon[dst - |above| + i] == above[i];
    assert y > 0 && i >= bpp ==> recon[dst - |above| + (i - bpp)] == above[i - bpp];
  }

  /** The body of the inner loop: byte i from its neighbours in the buffer. */
  method ReconstructByte(x: byte, filter: byte, recon: array<byte>, dst: nat, stride: nat, bpp: nat, y: nat, i: nat,
                         ghost above: seq<byte>, ghost filtered: seq<byte>)
    returns (r: byte)
    requires 0 < bpp && filter < FilterTypes && i < stride == |above| == |filtered| && dst + stride <= recon.Length
    requires if y > 0 then stride <= dst && Filled(recon, above, dst - stride) else above == ZeroRow(stride)
    requires x == filtered[i]
    requires forall k :: 0 <= k < i ==> recon[dst + k] == ReconRow(filter, above, filtered, bpp)[k]
    ensures r == ReconRow(filter, above, filtered, bpp)[i]
  {
    var a := if i >= bpp then recon[dst + i - bpp] else 0;
    var b := if y > 0 then recon[dst - stride + i] else 0;
    var c := if y > 0 && i >= bpp then recon[dst - stride + i - bpp] else 0;
    NextByte(recon, dst, filter, above, filtered, ReconRow(filter, above, filtered, bpp), y, i, bpp, x, a, b, c);
    r := (x + Predict(filter, a, b, c)) % 256;
  }

  /** What the inner loop has left in the buffer, as the row that obeys the equations. */
  lemma RowDone(recon: array<byte>, dst: nat, line: Line, above: seq<byte>, bpp: nat)
    requires 0 < bpp && |above| == |line.bytes| && (line.filter < FilterTypes || |line.bytes| == 0)
    requires Filled(recon, ReconLine(line, above, bpp), dst)
    ensures RowEquations(line.filter, above, line.bytes, recon[dst..dst + |line.bytes|], bpp)
  {
    assert recon[dst..dst + |line.bytes|] == ReconLine(line, above, bpp);
    if |line.bytes| > 0 { ReconObeys(line.filter, above, line.bytes, bpp); }
  }

  /** The inner loop. */
  method RowLoop(raw: seq<byte>, filter: byte, src: nat, recon: array<byte>, dst: nat, stride: nat, bpp: nat, y: nat,
                 ghost above: seq<byte>, ghost filtered: seq<byte>)
    returns (ok: bool)
    requires 0 < bpp && |above| == |filtered| == stride && dst + stride <= recon.Length
    requires HoldsRow(raw, filtered, src)
    requires if y > 0 then stride <= dst && Filled(recon, above, dst - stride) else above == ZeroRow(stride)
    modifies recon
    ensures ok <==> filter < FilterTypes || stride == 0
    ensures ok ==> Filled(recon, ReconLine(Line(filter, filtered), above, bpp), dst)
    ensures forall k :: 0 <= k < dst ==> recon[k] == old(recon[k])
  {
    ghost var row := if filter < FilterTypes then ReconRow(filter, above, filtered, bpp) else filtered;
    var i := 0;
    while i < stride
      invariant 0 <= i <= stride
      invariant i > 0 ==> filter < FilterTypes
      invariant forall k :: 0 <= k < dst ==> recon[k] == old(recon[k])
      invariant forall k :: 0 <= k < i ==> recon[dst + k] == row[k]
    {
      if filter >= FilterTypes {
        return false;
      }
      recon[dst + i] := ReconstructByte(raw[src + i], filter, recon, dst, stride, bpp, y, i, above, filtered);
      i := i + 1;
    }
    ok := filter < FilterTypes || stride == 0;
  }

  /** One scanline, in place: its bytes obey the equations of its filter type. */
  method ReconstructRow(raw: seq<byte>, filter: byte, src: nat, recon: array<byte>, dst: nat, stride: nat, bpp: nat,
                        y: nat,
                        ghost above: seq<byte>, ghost filtered: seq<byte>)
    returns (ok: bool)
    requires 0 < bpp && |above| == |filtered| == stride && dst + stride <= recon.Length
    requires HoldsRow(raw, filtered, src)
    requires if y > 0 then stride <= dst && Filled(recon, above, dst - stride) else above == ZeroRow(stride)
    modifies recon
    ensures ok <==> filter < FilterTypes || stride == 0
    ensures ok ==> Filled(recon, ReconLine(Line(filter, filtered), above, bpp), dst)
    ensures ok ==> RowEquations(filter, above, filtered, recon[dst..dst + stride], bpp)
    ensures forall k :: 0 <= k < dst ==> recon[k] == old(recon[k])
  {
    ok := RowLoop(raw, filter, src, recon, dst, stride, bpp, y, above, filtered);
    if ok { RowDone(recon, dst, Line(filter, filtered), above, bpp); }
  }

  method RowOffsets(y: nat, stride: nat) returns (src: nat, dst: nat)
    ensures src == Offset(y, stride + 1) + 1 && dst == Offset(y, stride)
  {
    OffsetIs(y, stride + 1);
    OffsetIs(y, stride);
    src, dst := y * (stride + 1) + 1, y * stride;
  }

  ghost predicate FilledRows(recon: array<byte>, rows: seq<seq<byte>>, stride: nat)
    reads recon
  {
    forall y :: 0 <= y < |rows| ==> Filled(recon, rows[y], Offset(y, stride))
  }

  lemma Snapshot(recon: array<byte>, rows: seq<seq<byte>>, stride: nat)
    requires FilledRows(recon, rows, stride)
    ensures HoldsRows(recon[..], rows, stride)
  {
    forall y | 0 <= y < |rows| ensures HoldsRow(recon[..], rows[y], Offset(y, stride)) {
      assert Filled(recon, rows[y], Offset(y, stride));
    }
  }

  /** The rows written stay when only bytes behind them change. */
  lemma RowsStay(before: seq<byte>, recon: array<byte>, rows: seq<seq<byte>>, stride: nat)
    requires AreRows(rows, stride) && |before| == recon.Length && HoldsRows(before, rows, stride)
    requires forall k :: 0 <= k < Offset(|rows|, stride) && k < recon.Length ==> recon[k] == before[k]
    ensures FilledRows(recon, rows, stride)
  {
    forall y | 0 <= y < |rows| ensures Filled(recon, rows[y], Offset(y, stride)) {
      OffsetGrows(y + 1, |rows|, stride);
      assert HoldsRow(before, rows[y], Offset(y, stride));
    }
  }

  lemma RowAdded(recon: array<byte>, rows: seq<seq<byte>>, row: seq<byte>, stride: nat)
    requires FilledRows(recon, rows, stride) && Filled(recon, row, Offset(|rows|, stride))
    ensures FilledRows(recon, rows + [row], stride)
  {
  }

  /** What y turns of the outer loop have done. */
  ghost predicate Reconstructed(recon: array<byte>, lines: seq<Line>, rows: seq<seq<byte>>, stride: nat, bpp: nat,
                                y: nat)
    requires 0 < bpp && y <= |lines|
    reads recon
  {
    && Readable(lines, stride, y) && rows == Unfilter(lines, stride, bpp, y)
    && FilledRows(recon, rows, stride)
  }

  lemma ReconstructedNext(recon: array<byte>, lines: seq<Line>, rows: seq<seq<byte>>, row: seq<byte>, stride: nat,
                          bpp: nat, y: nat)
    requires 0 < bpp && y < |lines| && |lines[y].bytes| == stride
    requires Reconstructed(recon, lines, rows, stride, bpp, y)
    requires lines[y].filter < FilterTypes || stride == 0
    requires row == ReconLine(lines[y], RowAbove(rows, y, stride), bpp) && Filled(recon, row, Offset(y, stride))
    ensures Reconstructed(recon, lines, rows + [row], stride, bpp, y + 1)
  {
    RowAdded(recon, rows, row, stride);
    UnfilterNext(lines, rows, row, stride, bpp, y);
  }

  lemma UnfilterNext(lines: seq<Line>, rows: seq<seq<byte>>, row: seq<byte>, stride: nat, bpp: nat, y: nat)
    requires 0 < bpp && y < |lines| && |lines[y].bytes| == stride
    requires Readable(lines, stride, y) && rows == Unfilter(lines, stride, bpp, y)
    requires lines[y].filter < FilterTypes || stride == 0
    requires row == ReconLine(lines[y], RowAbove(rows, y, stride), bpp)
    ensures Readable(lines, stride, y + 1) && Unfilter(lines, stride, bpp, y + 1) == rows + [row]
  {
  }

  lemma ReconstructedAll(recon: array<byte>, lines: seq<Line>, rows: seq<seq<byte>>, stride: nat, bpp: nat,
                         y: nat, height: nat)
    requires 0 < bpp && y == height == |lines| && Reconstructed(recon, lines, rows, stride, bpp, y)
    ensures Readable(lines, stride, height) && FilledRows(recon, Unfilter(lines, stride, bpp, height), stride)
  {
  }

  /** The body of the outer loop: row y. */
  method ReconstructLine(raw: seq<byte>, recon: array<byte>, stride: nat, y: nat, bpp: nat,
                         ghost lines: seq<Line>, ghost rows: seq<seq<byte>>)
    returns (ok: bool, ghost next: seq<seq<byte>>)
    requires 0 < bpp && y < |lines| && Offset(y + 1, stride) <= recon.Length
    requires |lines[y].bytes| == stride && HoldsLine(raw, lines[y], Offset(y, stride + 1))
    requires Reconstructed(recon, lines, rows, stride, bpp, y)
    modifies recon
    ensures ok <==> lines[y].filter < FilterTypes || stride == 0
    ensures ok ==> Reconstructed(recon, lines, next, stride, bpp, y + 1)
  {
    var src, dst := RowOffsets(y, stride);
    ghost var line, above := lines[y], RowAbove(rows, y, stride);
    assert y > 0 ==> Filled(recon, rows[y - 1], Offset(y - 1, stride));
    Snapshot(recon, rows, stride);
    ghost var before := recon[..];
    ok := ReconstructRow(raw, raw[src - 1], src, recon, dst, stride, bpp, y, above, line.bytes);
    RowsStay(before, recon, rows, stride);
    next := rows;
    if ok {
      ghost var row := ReconLine(line, above, bpp);
      ReconstructedNext(recon, lines, rows, row, stride, bpp, y);
      next := rows + [row];
    }
  }

  /** Every scanline into one buffer, up to the first unknown filter type. */
  method ReconstructRows(raw: seq<byte>, recon: array<byte>, stride: nat, height: nat, bpp: nat, ghost lines: seq<Line>)
    returns (ok: bool)
    requires 0 < bpp && |lines| == height && HoldsLines(raw, lines, stride) && recon.Length == Offset(height, stride)
    modifies recon
    ensures ok <==> Readable(lines, stride, height)
    ensures ok ==> FilledRows(recon, Unfilter(lines, stride, bpp, height), stride)
  {
    var y := 0;
    ghost var rows: seq<seq<byte>> := [];
    while y < height
      invariant 0 <= y <= height
      invariant Reconstructed(recon, lines, rows, stride, bpp, y)
    {
      OffsetGrows(y + 1, height, stride);
      ok, rows := ReconstructLine(raw, recon, stride, y, bpp, lines, rows);
      if !ok {
        assert !(lines[y].filter < FilterTypes || stride == 0);
        return;
      }
      y := y + 1;
    }
    ReconstructedAll(recon, lines, rows, stride, bpp, y, height);
    ok := true;
  }

  method ReconstructImage(raw: seq<byte>, stride: nat, height: nat, bpp: nat, ghost lines: seq<Line>)
    returns (ok: bool, recon: array<byte>)
    requires 0 < bpp && |lines| == height && HoldsLines(raw, lines, stride)
    ensures fresh(recon) && recon.Length == Offset(height, stride)
    ensures ok <==> Readable(lines, stride, height)
    ensures ok ==> FilledRows(recon, Unfilter(lines, stride, bpp, height), stride)
  {
    OffsetIs(height, stride);
    recon := new byte[height * stride](i => 0);
    ok := ReconstructRows(raw, recon, stride, height, bpp, lines);
  }

  // ---------- Narrowing RGBA to RGB ----------

  /** `n` pixels of four bytes, without the fourth. */
  function DropAlpha(pixels: seq<byte>, n: nat): (r: seq<byte>)
    requires |pixels| == 4 * n
    ensures |r| == 3 * n
  {
    seq(3 * n, i requires 0 <= i < 3 * n => pixels[4 * (i / 3) + i % 3])
  }

  method NarrowToRgb(recon: array<byte>, n: nat) returns (rgb: array<byte>)
    requires recon.Length == 4 * n
    ensures fresh(rgb) && rgb[..] == DropAlpha(recon[..], n)
  {
    rgb := new byte[3 * n](i => 0);
    var i, o := 0, 0;
    ghost var k := 0;
    while i < recon.Length
      invariant 0 <= k <= n && i == 4 * k && o == 3 * k
      invariant forall m :: 0 <= m < o ==> rgb[m] == recon[4 * (m / 3) + m % 3]
    {
      rgb[o] := recon[i];
      rgb[o + 1] := recon[i + 1];
      rgb[o + 2] := recon[i + 2];
      i, o := i + 4, o + 3;
      k := k + 1;
    }
  }
}
