/**
 * From the bytes of a PNG file to RGB rows, and the round trips: whatever filters, chunk split and
 * neighbouring chunks a writer chose, the decoder returns the writer's pixels.
 */
module PngDecoder {
  import opened Wrappers
  import opened Bytes
  import opened Filter
  import opened Chunks
  import opened Png

  // ---------- The data stream as lines ----------

  ghost function LineAt(raw: seq<byte>, stride: nat, y: nat): (line: Line)
    requires Offset(y + 1, stride + 1) <= |raw|
    ensures |line.bytes| == stride && HoldsLine(raw, line, Offset(y, stride + 1))
  {
    var at := Offset(y, stride + 1);
    Line(raw[at], raw[at + 1..at + 1 + stride])
  }

  ghost function LinesOf(raw: seq<byte>, stride: nat, n: nat): (lines: seq<Line>)
    requires Offset(n, stride + 1) <= |raw|
    ensures |lines| == n && HoldsLines(raw, lines, stride)
  {
    if n == 0 then [] else LinesOf(raw, stride, n - 1) + [LineAt(raw, stride, n - 1)]
  }

  lemma LineUnique(raw: seq<byte>, line: Line, other: Line, at: nat)
    requires HoldsLine(raw, line, at) && HoldsLine(raw, other, at) && |line.bytes| == |other.bytes|
    ensures line == other
  {
    forall i | 0 <= i < |line.bytes| ensures line.bytes[i] == other.bytes[i] {
      assert raw[at + 1 + i] == line.bytes[i] && raw[at + 1 + i] == other.bytes[i];
    }
  }

  lemma LinesUnique(raw: seq<byte>, lines: seq<Line>, others: seq<Line>, stride: nat)
    requires |lines| == |others| && HoldsLines(raw, lines, stride) && HoldsLines(raw, others, stride)
    ensures lines == others
  {
    forall y | 0 <= y < |lines| ensures lines[y] == others[y] {
      LineUnique(raw, lines[y], others[y], Offset(y, stride + 1));
    }
  }

  lemma LinesFit(raw: seq<byte>, lines: seq<Line>, stride: nat)
    requires HoldsLines(raw, lines, stride)
    ensures Offset(|lines|, stride + 1) <= |raw|
  {
    if |lines| > 0 {
      assert HoldsLine(raw, lines[|lines| - 1], Offset(|lines| - 1, stride + 1));
    }
  }

  // ---------- Decoding ----------

  function BytesPerPixel(colour: byte): nat { if colour == 6 then 4 else 3 }

  /** RGB rows: of four bytes a pixel, the first three. */
  ghost function Narrowed(rows: seq<seq<byte>>, width: nat, bpp: nat): (rgb: seq<seq<byte>>)
    requires (bpp == 3 || bpp == 4) && AreRows(rows, width * bpp)
    ensures |rgb| == |rows| && AreRows(rgb, 3 * width)
  {
    if bpp == 3 then rows
    else seq<seq<byte>>(|rows|, y requires 0 <= y < |rows| => DropAlpha(rows[y], width))
  }

  /** The rows a data stream stands for, if it is long enough and its filter types are known. */
  ghost function Rows(raw: seq<byte>, stride: nat, height: nat, bpp: nat): (rows: Option<seq<seq<byte>>>)
    requires 0 < bpp
    ensures rows.Some? ==> |rows.value| == height && AreRows(rows.value, stride)
  {
    if |raw| < Offset(height, stride + 1) then None
    else
      var lines := LinesOf(raw, stride, height);
      if Readable(lines, stride, height) then Some(Unfilter(lines, stride, bpp, height)) else None
  }

  ghost function Picture(raw: seq<byte>, width: nat, height: nat, bpp: nat): Option<seq<seq<byte>>>
    requires bpp == 3 || bpp == 4
  {
    var rows := Rows(raw, width * bpp, height, bpp);
    if rows.None? then None else Some(Narrowed(rows.value, width, bpp))
  }

  /** What a file shows as truecolour, 8 bits a sample; None for every other kind of file. */
  ghost function Decoded(buf: seq<byte>, width: nat, height: nat,
                         inflate: seq<byte> -> Option<seq<byte>>): Option<seq<seq<byte>>> {
    if |buf| <= 25 || buf[24] != 8 || (buf[25] != 2 && buf[25] != 6) then None
    else
      var parts := ImageData(buf, 8);
      if |parts| == 0 then None
      else
        var raw := inflate(Concat(parts));
        if raw.None? then None else Picture(raw.value, width, height, BytesPerPixel(buf[25]))
  }

  method DecodeRows(raw: seq<byte>, stride: nat, height: nat, bpp: nat) returns (ok: bool, recon: array<byte>)
    requires 0 < bpp
    ensures ok <==> Rows(raw, stride, height, bpp).Some?
    ensures fresh(recon)
    ensures ok ==>
        recon.Length == Offset(height, stride) && FilledRows(recon, Rows(raw, stride, height, bpp).value, stride)
  {
    var needed := (stride + 1) * height;
    OffsetIs(height, stride + 1);
    assert needed == Offset(height, stride + 1);
    if |raw| < needed {
      recon := new byte[0];
      ok := false;
    } else {
      ok, recon := ReconstructImage(raw, stride, height, bpp, LinesOf(raw, stride, height));
    }
  }

  method DropAlphaOfAll(recon: array<byte>, width: nat, height: nat, ghost rows: seq<seq<byte>>)
    returns (rgb: array<byte>)
    requires |rows| == height && AreRows(rows, width * 4)
    requires recon.Length == Offset(height, width * 4) && FilledRows(recon, rows, width * 4)
    ensures fresh(rgb) && rgb.Length == Offset(height, 3 * width)
        && FilledRows(rgb, Narrowed(rows, width, 4), 3 * width)
  {
    Quadruple(height, width);
    OffsetIs(height, width);
    assert width * height == height * width;
    rgb := NarrowToRgb(recon, width * height);
    NarrowedRows(recon, rows, rgb, width, height);
  }

  method DecodeRaw(raw: seq<byte>, width: nat, height: nat, bpp: nat) returns (ok: bool, pixels: array<byte>)
    requires bpp == 3 || bpp == 4
    ensures ok <==> Picture(raw, width, height, bpp).Some?
    ensures fresh(pixels)
    ensures ok ==> pixels.Length == Offset(height, 3 * width)
                   && FilledRows(pixels, Picture(raw, width, height, bpp).value, 3 * width)
  {
    ok, pixels := DecodeRows(raw, width * bpp, height, bpp);
    if ok && bpp == 4 {
      pixels := DropAlphaOfAll(pixels, width, height, Rows(raw, width * bpp, height, bpp).value);
    }
  }

  /** Offsets in pixels and in bytes. */
  lemma {:induction false} Quadruple(y: nat, width: nat)
    ensures Offset(y, 4 * width) == 4 * Offset(y, width) && Offset(y, 3 * width) == 3 * Offset(y, width)
  {
    if y > 0 {
      Quadruple(y - 1, width);
    }
  }

  lemma NarrowedRow(recon: array<byte>, row: seq<byte>, rgb: array<byte>, width: nat, before: nat, total: nat)
    requires |row| == 4 * width && recon.Length == 4 * total && before + width <= total
    requires Filled(recon, row, 4 * before) && rgb[..] == DropAlpha(recon[..], total)
    ensures Filled(rgb, DropAlpha(row, width), 3 * before)
  {
    forall i | 0 <= i < 3 * width ensures rgb[3 * before + i] == DropAlpha(row, width)[i] {
      assert rgb[..][3 * before + i] == recon[..][4 * ((3 * before + i) / 3) + (3 * before + i) % 3];
      assert (3 * before + i) / 3 == before + i / 3 && (3 * before + i) % 3 == i % 3;
      var m := 4 * (i / 3) + i % 3;
      assert recon[4 * before + m] == row[m];
    }
  }

  lemma NarrowedRows(recon: array<byte>, rows: seq<seq<byte>>, rgb: array<byte>, width: nat, height: nat)
    requires |rows| == height && AreRows(rows, width * 4) && FilledRows(recon, rows, width * 4)
    requires recon.Length == 4 * Offset(height, width) && rgb[..] == DropAlpha(recon[..], Offset(height, width))
    ensures FilledRows(rgb, Narrowed(rows, width, 4), 3 * width)
  {
    var out := Narrowed(rows, width, 4);
    forall y | 0 <= y < height ensures Filled(rgb, out[y], Offset(y, 3 * width)) {
      Quadruple(y, width);
      OffsetGrows(y + 1, height, width);
      assert Filled(recon, rows[y], Offset(y, width * 4));
      NarrowedRow(recon, rows[y], rgb, width, Offset(y, width), Offset(height, width));
    }
  }

  /** Row y is what its filter type and its bytes in the data stream make of the row above. */
  ghost predicate RowOfStream(raw: seq<byte>, rows: seq<seq<byte>>, stride: nat, bpp: nat, y: nat)
    requires y < |rows|
  {
    var at := Offset(y, stride + 1);
    && at + 1 + stride <= |raw|
    && LineObeys(Line(raw[at], raw[at + 1..at + 1 + stride]), rows, stride, bpp, y)
  }

  ghost predicate StreamEquations(raw: seq<byte>, rows: seq<seq<byte>>, stride: nat, height: nat, bpp: nat) {
    |rows| == height && AreRows(rows, stride) && forall y :: 0 <= y < height ==> RowOfStream(raw, rows, stride, bpp, y)
  }

  /** The three samples of pixel x of an RGB row are the first three of pixel x of a row of `bpp` bytes a pixel. */
  ghost predicate SamePixel(rgb: seq<byte>, row: seq<byte>, bpp: nat, x: nat) {
    && 3 * x + 3 <= |rgb| && bpp * x + 3 <= |row|
    && rgb[3 * x] == row[bpp * x] && rgb[3 * x + 1] == row[bpp * x + 1] && rgb[3 * x + 2] == row[bpp * x + 2]
  }

  ghost predicate ShowsRgb(rgb: seq<seq<byte>>, rows: seq<seq<byte>>, width: nat, bpp: nat) {
    |rgb| == |rows| && forall y, x :: 0 <= y < |rows| && 0 <= x < width ==> SamePixel(rgb[y], rows[y], bpp, x)
  }

  /** The picture is what the equations make of the inflated image data. */
  ghost predicate ObeysFilters(buf: seq<byte>, width: nat, height: nat, inflate: seq<byte> -> Option<seq<byte>>,
                               rgb: seq<seq<byte>>)
    requires |buf| > 25
  {
    var bpp := if buf[25] == 6 then 4 else 3;
    && |rgb| == height && AreRows(rgb, 3 * width)
    && var raw := inflate(Concat(ImageData(buf, 8)));
       raw.Some? && exists rows ::
         StreamEquations(raw.value, rows, width * bpp, height, bpp) && ShowsRgb(rgb, rows, width, bpp)
  }

  lemma RowsObey(raw: seq<byte>, stride: nat, height: nat, bpp: nat)
    requires 0 < bpp && Rows(raw, stride, height, bpp).Some?
    ensures StreamEquations(raw, Rows(raw, stride, height, bpp).value, stride, height, bpp)
  {
    var lines, rows := LinesOf(raw, stride, height), Rows(raw, stride, height, bpp).value;
    UnfilterObeys(lines, stride, bpp);
    forall y | 0 <= y < height ensures RowOfStream(raw, rows, stride, bpp, y) {
      LineInStream(raw, lines[y], Offset(y, stride + 1), stride);
    }
  }

  lemma LineInStream(raw: seq<byte>, line: Line, at: nat, stride: nat)
    requires HoldsLine(raw, line, at) && |line.bytes| == stride
    ensures at + 1 + stride <= |raw| && line == Line(raw[at], raw[at + 1..at + 1 + stride])
  {
    HeldSlice(raw, line.bytes, at + 1);
  }

  lemma NarrowedShows(rows: seq<seq<byte>>, width: nat, bpp: nat)
    requires (bpp == 3 || bpp == 4) && AreRows(rows, width * bpp)
    ensures ShowsRgb(Narrowed(rows, width, bpp), rows, width, bpp)
  {
    var rgb := Narrowed(rows, width, bpp);
    forall y, x | 0 <= y < |rows| && 0 <= x < width ensures SamePixel(rgb[y], rows[y], bpp, x) {
      if bpp == 4 { FirstThree(rows[y], width, x); } else { assert |rows[y]| == width * 3; }
    }
  }

  lemma FirstThree(row: seq<byte>, width: nat, x: nat)
    requires |row| == 4 * width && x < width
    ensures SamePixel(DropAlpha(row, width), row, 4, x)
  {
    assert 3 * x / 3 == (3 * x + 1) / 3 == (3 * x + 2) / 3 == x;
    assert 3 * x % 3 == 0 && (3 * x + 1) % 3 == 1 && (3 * x + 2) % 3 == 2;
  }

  /** Whatever file is decoded, its pixels obey the equations of section 6 of RFC 2083. */
  lemma DecodedObeys(buf: seq<byte>, width: nat, height: nat, inflate: seq<byte> -> Option<seq<byte>>)
    requires Decoded(buf, width, height, inflate).Some?
    ensures |buf| > 25 && ObeysFilters(buf, width, height, inflate, Decoded(buf, width, height, inflate).value)
  {
    var bpp := BytesPerPixel(buf[25]);
    var raw := inflate(Concat(ImageData(buf, 8))).value;
    var rows := Rows(raw, width * bpp, height, bpp).value;
    RowsObey(raw, width * bpp, height, bpp);
    NarrowedShows(rows, width, bpp);
  }

  /** The decoder: refuses exactly the files that show no picture, and else fills the buffer with it. */
  method DecodeTruecolorPng(buf: seq<byte>, width: nat, height: nat, inflate: seq<byte> -> Option<seq<byte>>)
    returns (ok: bool, pixels: array<byte>)
    ensures ok <==> Decoded(buf, width, height, inflate).Some?
    ensures ok ==> pixels.Length == Offset(height, 3 * width)
                   && FilledRows(pixels, Decoded(buf, width, height, inflate).value, 3 * width)
    ensures ok ==> |buf| > 25 && ObeysFilters(buf, width, height, inflate, Decoded(buf, width, height, inflate).value)
  {
    pixels := new byte[0];
    ok := false;
    if |buf| <= 25 || buf[24] != 8 || (buf[25] != 2 && buf[25] != 6) {
      return;
    }
    var parts := CollectImageData(buf);
    if |parts| == 0 {
      return;
    }
    var raw := inflate(Concat(parts));
    if raw.None? {
      return;
    }
    ok, pixels := DecodeRaw(raw.value, width, height, BytesPerPixel(buf[25]));
    if ok { DecodedObeys(buf, width, height, inflate); }
  }

  /** The filter type of row y is none of the five. */
  ghost predicate FilterUnknown(raw: seq<byte>, stride: nat, y: nat) {
    Offset(y, stride + 1) < |raw| && raw[Offset(y, stride + 1)] > 4
  }

  ghost predicate Refused(raw: seq<byte>, stride: nat, height: nat) {
    |raw| < Offset(height, stride + 1) || (stride > 0 && exists y :: 0 <= y < height && FilterUnknown(raw, stride, y))
  }

  lemma RowsRefusedIff(raw: seq<byte>, stride: nat, height: nat, bpp: nat)
    requires 0 < bpp
    ensures Rows(raw, stride, height, bpp).None? <==> Refused(raw, stride, height)
  {
    if |raw| >= Offset(height, stride + 1) {
      var lines := LinesOf(raw, stride, height);
      forall y | 0 <= y < height
        ensures |lines[y].bytes| == stride
        ensures FilterUnknown(raw, stride, y) <==> !(lines[y].filter < FilterTypes)
      {
        assert HoldsLine(raw, lines[y], Offset(y, stride + 1));
      }
    }
  }

  /** A file is refused exactly when it is not 8-bit truecolour, has no data, too little of it, or an unknown filter. */
  lemma RefusedIff(buf: seq<byte>, width: nat, height: nat, inflate: seq<byte> -> Option<seq<byte>>)
    ensures var parts := ImageData(buf, 8);
            var raw := inflate(Concat(parts));
            Decoded(buf, width, height, inflate).None? <==>
              || |buf| <= 25 || buf[24] != 8 || (buf[25] != 2 && buf[25] != 6) || |parts| == 0 || raw.None?
              || Refused(raw.value, width * (if buf[25] == 6 then 4 else 3), height)
  {
    var raw := inflate(Concat(ImageData(buf, 8)));
    if |buf| > 25 && raw.Some? {
      var bpp := if buf[25] == 6 then 4 else 3;
      RowsRefusedIff(raw.value, width * bpp, height, bpp);
    }
  }

  // ---------- Round trips ----------

  /** The data stream decides the rows. */
  lemma RowsOfFiltered(raw: seq<byte>, filters: seq<byte>, rows: seq<seq<byte>>, stride: nat, bpp: nat)
    requires 0 < bpp && |filters| == |rows| && AreRows(rows, stride)
    requires forall y :: 0 <= y < |filters| ==> filters[y] < FilterTypes
    requires HoldsLines(raw, FilterImage(filters, rows, stride, bpp), stride)
    ensures Rows(raw, stride, |rows|, bpp) == Some(rows)
  {
    var lines := FilterImage(filters, rows, stride, bpp);
    LinesFit(raw, lines, stride);
    LinesUnique(raw, LinesOf(raw, stride, |rows|), lines, stride);
    UnfilterInverts(filters, rows, stride, bpp);
  }

  /**
   * For every picture, every choice of filters row by row, every split of the compressed data over
   * IDAT chunks, any other chunks between them and anything behind the end chunk, the decoder
   * returns the picture (without its alpha samples).
   */
  lemma DecodeInverts(buf: seq<byte>, width: nat, colour: byte, chunks: seq<Chunk>,
                      filters: seq<byte>, rows: seq<seq<byte>>, raw: seq<byte>, inflate: seq<byte> -> Option<seq<byte>>)
    requires (colour == 2 || colour == 6) && |filters| == |rows|
    requires var bpp := BytesPerPixel(colour);
             && AreRows(rows, width * bpp)
             && (forall y :: 0 <= y < |filters| ==> filters[y] < FilterTypes)
             && HoldsLines(raw, FilterImage(filters, rows, width * bpp, bpp), width * bpp)
    requires HeaderAt(buf, width, |rows|, colour)
    requires ChunksAt(buf, chunks, 8) && (HasEnd(chunks) || 8 + SizeOfAll(chunks) + 8 > |buf|)
    requires |Payloads(chunks)| > 0 && inflate(Concat(Payloads(chunks))) == Some(raw)
    ensures ReadPngSize(buf) == Some(Size(width, |rows|))
    ensures Decoded(buf, width, |rows|, inflate) == Some(Narrowed(rows, width, BytesPerPixel(colour)))
  {
    var bpp := BytesPerPixel(colour);
    HeaderReadsBack(buf, width, |rows|, colour);
    WalkCollects(buf, chunks, 8, 8 + SizeOfAll(chunks));
    RowsOfFiltered(raw, filters, rows, width * bpp, bpp);
  }

  /** Where the encoder puts its chunks. */
  lemma FileLayout(file: seq<byte>, width: nat, height: nat, data: seq<byte>)
    requires Encodable(width, height, data)
    requires file == Signature + SerializedAll(FileChunks(width, height, data))
    ensures HeaderAt(file, width, height, 2)
    ensures ChunksAt(file, FileChunks(width, height, data), 8)
  {
    var chunks := FileChunks(width, height, data);
    BodyLayout(file, Signature, chunks, SerializedAll(chunks));
    assert chunks[0] == Chunk(IHDR, Header(width, height, 2, [0, 0, 0]));
  }

  lemma BodyLayout(file: seq<byte>, signature: seq<byte>, chunks: seq<Chunk>, body: seq<byte>)
    requires |signature| == 8 && |chunks| > 0 && AllFit(chunks) && body == SerializedAll(chunks)
    requires file == signature + body
    ensures HoldsRow(file, signature, 0) && ChunkAt(file, chunks[0], 8) && ChunksAt(file, chunks, 8)
  {
    HoldsParts(file, signature, body, 0, 8);
    SerializedAllAt(file, chunks, 8);
  }

  lemma FilePayload(chunks: seq<Chunk>, data: seq<byte>)
    requires |chunks| == 3 && chunks[0].name == IHDR && chunks[1] == Chunk(IDAT, data) && chunks[2].name == IEND
    ensures HasEnd(chunks) && Payloads(chunks) == [data] && Concat([data]) == data
  {
    var rest := chunks[1..];
    assert rest[1..][0] == chunks[2];
    assert Payloads(rest[1..]) == [];
    assert Payloads(rest) == [data] + [];
    assert Payloads(chunks) == [] + Payloads(rest);
    var none: seq<seq<byte>> := [data][1..];
    assert none == [] && data + [] == data;
  }

  lemma RawShowsPainting(raw: seq<byte>, width: nat, height: nat, paint: (nat, nat) -> Colour)
    requires IsRaw(raw, width, height, paint)
    ensures Picture(raw, width, height, 3) == Some(Painted(width, height, paint))
  {
    PlainRows(raw, ZeroRow(height), Painted(width, height, paint), 3 * width);
    assert width * 3 == 3 * width;
  }

  lemma PlainRows(raw: seq<byte>, zeros: seq<byte>, rows: seq<seq<byte>>, stride: nat)
    requires AreRows(rows, stride) && HoldsLines(raw, PlainLines(rows), stride)
    requires |zeros| == |rows| && forall y :: 0 <= y < |zeros| ==> zeros[y] == 0
    ensures Rows(raw, stride, |rows|, 3) == Some(rows)
  {
    PlainIsFiltered(zeros, rows, stride, 3);
    RowsOfFiltered(raw, zeros, rows, stride, 3);
  }

  /**
   * Decoding what was encoded gives exactly the painted samples modulo 256, and the dimensions,
   * provided only that inflating this data stream's compressed form gives it back.
   */
  lemma RoundTrip(width: nat, height: nat, paint: (nat, nat) -> Colour,
                  deflate: seq<byte> -> seq<byte>, inflate: seq<byte> -> Option<seq<byte>>)
    requires var raw := RawOf(width, height, paint); inflate(deflate(raw)) == Some(raw)
    requires Encoded(width, height, paint, deflate).Some?
    ensures var file := Encoded(width, height, paint, deflate).value;
            && ReadPngSize(file) == Some(Size(width, height))
            && Decoded(file, width, height, inflate) == Some(Painted(width, height, paint))
  {
    var raw, file := RawOf(width, height, paint), Encoded(width, height, paint, deflate).value;
    RawOfIsRaw(width, height, paint);
    RoundTripOf(file, width, height, paint, raw, deflate(raw), inflate);
  }

  /** What reading the three chunks back gives. */
  lemma FileShows(file: seq<byte>, width: nat, height: nat, data: seq<byte>)
    requires Encodable(width, height, data)
    requires file == Signature + SerializedAll(FileChunks(width, height, data))
    ensures ReadPngSize(file) == Some(Size(width, height))
    ensures |file| > 25 && file[24] == 8 && file[25] == 2
    ensures ImageData(file, 8) == [data] && Concat([data]) == data
  {
    var chunks := FileChunks(width, height, data);
    FileLayout(file, width, height, data);
    HeaderReadsBack(file, width, height, 2);
    FilePayload(chunks, data);
    WalkCollects(file, chunks, 8, 8 + SizeOfAll(chunks));
  }

  lemma RoundTripOf(file: seq<byte>, width: nat, height: nat, paint: (nat, nat) -> Colour, raw: seq<byte>,
                    data: seq<byte>, inflate: seq<byte> -> Option<seq<byte>>)
    requires IsRaw(raw, width, height, paint) && Encodable(width, height, data) && inflate(data) == Some(raw)
    requires file == Signature + SerializedAll(FileChunks(width, height, data))
    ensures ReadPngSize(file) == Some(Size(width, height))
    ensures Decoded(file, width, height, inflate) == Some(Painted(width, height, paint))
  {
    FileShows(file, width, height, data);
    assert inflate(Concat(ImageData(file, 8))) == Some(raw) && BytesPerPixel(file[25]) == 3;
    RawShowsPainting(raw, width, height, paint);
  }

  /** Byte by byte: sample c of pixel (x, y). */
  lemma PaintedSample(width: nat, height: nat, paint: (nat, nat) -> Colour, x: nat, y: nat)
    requires x < width && y < height
    ensures var row := Painted(width, height, paint)[y];
            && row[3 * x] == paint(x, y).red % 256
            && row[3 * x + 1] == paint(x, y).green % 256
            && row[3 * x + 2] == paint(x, y).blue % 256
  {
  }
}
