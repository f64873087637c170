/** The PNG encoder of system/server/fixtures/png-frame.js, a decoder that follows RFC 2083, and the
    round trip between them. Deflate and inflate are any pair of functions that undo each other. */
module PngFrame {
  import opened Common
  import opened Crc

  type Bytes = seq<Byte>

  /** Colour components as the pixel callback gives them; a missing alpha counts as 255. */
  datatype Pixel = Pixel(r: int, g: int, b: int, a: Option<int>)

  datatype Error = RangeError

  const LIMIT: nat := 0x1_0000_0000
  const SIGNATURE: Bytes := [0x89, 0x50, 0x4e, 0x47, 0x0d, 0x0a, 0x1a, 0x0a]
  const IHDR: Bytes := [0x49, 0x48, 0x44, 0x52]
  const IDAT: Bytes := [0x49, 0x44, 0x41, 0x54]
  const IEND: Bytes := [0x49, 0x45, 0x4e, 0x44]

  // ---------- Numbers in big-endian order ----------

  /** What a byte buffer stores of a number. */
  function ToByte(n: int): Byte { n % 256 }

  function Big(n: nat): (r: Bytes)
    ensures |r| == 4
  {
    [ToByte(n / 0x100_0000), ToByte(n / 0x1_0000), ToByte(n / 0x100), ToByte(n)]
  }

  function Unbig(b: Bytes): nat
    requires |b| == 4
  {
    ((b[0] as int * 256 + b[1] as int) * 256 + b[2] as int) * 256 + b[3] as int
  }

  lemma BigUnbig(n: nat)
    requires n < LIMIT
    ensures Unbig(Big(n)) == n
  {
    assert n / 0x1_0000 == n / 0x100 / 256 && n / 0x100_0000 == n / 0x1_0000 / 256;
  }

  /** The CRC as the number that is written. */
  function CrcNumber(bytes: Bytes): (n: nat)
    ensures n < LIMIT
  {
    NumberDetermines(Crc32(bytes), Crc32(bytes));
    NumberOf(Crc32(bytes), 32)
  }

  // ---------- Chunks (section 3.2) ----------

  function Chunk(kind: Bytes, data: Bytes): Bytes {
    Big(|data|) + kind + data + Big(CrcNumber(kind + data))
  }

  /** Buffer.writeUInt32BE: fails, writing nothing, when the number does not fit. */
  method WriteUInt32BE(buffer: array<Byte>, value: nat, at: nat) returns (ok: bool)
    requires at + 4 <= buffer.Length
    modifies buffer
    ensures ok <==> value < LIMIT
    ensures ok ==> buffer[at..at + 4] == Big(value)
    ensures forall k :: 0 <= k < buffer.Length && (!ok || !(at <= k < at + 4)) ==> buffer[k] == old(buffer[k])
  {
    if value >= LIMIT { return false; }
    buffer[at] := ToByte(value / 0x100_0000);
    buffer[at + 1] := ToByte(value / 0x1_0000);
    buffer[at + 2] := ToByte(value / 0x100);
    buffer[at + 3] := ToByte(value);
    return true;
  }

  method WriteChunk(kind: Bytes, data: Bytes) returns (r: Result<Bytes, Error>)
    requires |kind| == 4
    ensures r == if |data| < LIMIT then Ok(Chunk(kind, data)) else Err(RangeError)
  {
    var head := new Byte[8](_ => 0);
    var fits := WriteUInt32BE(head, |data|, 0);
    if !fits { return Err(RangeError); }
    for i := 0 to 4
      invariant head[..4] == Big(|data|) && head[4..4 + i] == kind[..i]
    {
      head[4 + i] := kind[i];
    }
    assert head[4..8] == kind[..4] == kind;
    assert head[..] == Big(|data|) + kind;
    var value := ComputeCrc(head[4..] + data);
    var crc := new Byte[4](_ => 0);
    NumberDetermines(value, value);
    var _ := WriteUInt32BE(crc, NumberOf(value, 32), 0);
    assert crc[..] == crc[0..4] == Big(CrcNumber(kind + data));
    return Ok(head[..] + data + crc[..]);
  }

  // ---------- The raster (section 6.2, filter type 0) ----------

  function Channels(alpha: bool): nat { if alpha then 4 else 3 }

  function Stride(width: nat, alpha: bool): nat { width * Channels(alpha) + 1 }

  /** The first byte of row y, and the first byte of pixel (x, y). */
  function RowStart(width: nat, alpha: bool, y: nat): nat { y * Stride(width, alpha) }

  function PixelStart(width: nat, alpha: bool, x: nat, y: nat): nat {
    RowStart(width, alpha, y) + 1 + x * Channels(alpha)
  }

  function Component(p: Pixel, k: nat): Byte {
    ToByte(if k == 0 then p.r else if k == 1 then p.g else if k == 2 then p.b
           else if p.a.Some? then p.a.value else 255)
  }

  /** Byte i of a row: the filter type, then the components of each pixel in turn. */
  function RowByte(pixel: (nat, nat) -> Pixel, alpha: bool, y: nat, i: nat): Byte {
    if i == 0 then 0 else Component(pixel((i - 1) / Channels(alpha), y), (i - 1) % Channels(alpha))
  }

  function RasterByte(stride: nat, pixel: (nat, nat) -> Pixel, alpha: bool, n: nat): Byte
    requires stride > 0
  {
    RowByte(pixel, alpha, n / stride, n % stride)
  }

  function Raster(width: nat, height: nat, pixel: (nat, nat) -> Pixel, alpha: bool): (r: Bytes)
    ensures |r| == Stride(width, alpha) * height
    ensures forall n :: 0 <= n < |r| ==> r[n] == RasterByte(Stride(width, alpha), pixel, alpha, n)
  {
    var stride := Stride(width, alpha);
    seq(stride * height, n requires 0 <= n => RasterByte(stride, pixel, alpha, n))
  }

  lemma MulAtLeast(x: int, d: nat)
    ensures x >= 1 ==> x * d >= d
    ensures x <= -1 ==> x * d + d <= 0
  {
  }

  lemma DivMod(q: nat, d: nat, r: nat)
    requires r < d
    ensures (q * d + r) / d == q && (q * d + r) % d == r
  {
    var n := q * d + r;
    assert (q - n / d) * d == n % d - r;
    MulAtLeast(q - n / d, d);
  }

  lemma RowFits(y: nat, height: nat, stride: nat)
    requires y < height
    ensures y * stride + stride <= stride * height
  {
    MulAtLeast(height - y, stride);
    assert (height - y) * stride == stride * height - y * stride;
  }

  /** Where pixel (x, y) starts, that it fits, and the bytes it must have there. */
  lemma Cell(width: nat, height: nat, x: nat, y: nat, pixel: (nat, nat) -> Pixel, alpha: bool)
    requires x < width && y < height
    ensures PixelStart(width, alpha, x, y) + Channels(alpha) <= Stride(width, alpha) * height
    ensures forall k :: 0 <= k < Channels(alpha) ==>
      RasterByte(Stride(width, alpha), pixel, alpha, PixelStart(width, alpha, x, y) + k) == Component(pixel(x, y), k)
  {
    hide Component;
    var channels, stride := Channels(alpha), Stride(width, alpha);
    RowFits(y, height, stride);
    RowFits(x, width, channels);
    forall k | 0 <= k < channels
      ensures RasterByte(stride, pixel, alpha, PixelStart(width, alpha, x, y) + k) == Component(pixel(x, y), k)
    {
      DivMod(y, stride, 1 + x * channels + k);
      DivMod(x, channels, k);
    }
  }

  /** Row y starts in bounds with its filter byte. */
  lemma RowHead(width: nat, height: nat, y: nat, pixel: (nat, nat) -> Pixel, alpha: bool)
    requires y < height
    ensures RowStart(width, alpha, y) < Stride(width, alpha) * height
    ensures RasterByte(Stride(width, alpha), pixel, alpha, RowStart(width, alpha, y)) == 0
  {
    RowFits(y, height, Stride(width, alpha));
    DivMod(y, Stride(width, alpha), 0);
  }

  lemma StridePositive(width: nat, alpha: bool)
    ensures Stride(width, alpha) > 0
  {
  }

  /** Rows and pixels follow each other without gaps. */
  lemma NoGaps(width: nat, alpha: bool, x: nat, y: nat, height: nat)
    ensures RowStart(width, alpha, 0) == 0 && RowStart(width, alpha, height) == Stride(width, alpha) * height
    ensures PixelStart(width, alpha, 0, y) == RowStart(width, alpha, y) + 1
    ensures PixelStart(width, alpha, x + 1, y) == PixelStart(width, alpha, x, y) + Channels(alpha)
    ensures PixelStart(width, alpha, width, y) == RowStart(width, alpha, y + 1)
  {
  }

  /** The positions 0 to n - 1, each once. */
  function UpTo(n: nat): seq<nat> { seq(n, i => i) }

  /** The raster's buffer. It is filled through Put alone, which notes each position it writes. */
  class RasterBuffer {
    const rows: array<Byte>
    ghost var order: seq<nat>

    /** Exactly the first 'next' bytes were written, each once, in order, and they are those of the raster. */
    ghost predicate FilledTo(next: nat, stride: nat, pixel: (nat, nat) -> Pixel, alpha: bool)
      reads this, rows
    {
      && stride > 0 && next <= rows.Length && order == UpTo(next)
      && forall n :: 0 <= n < next ==> rows[n] == RasterByte(stride, pixel, alpha, n)
    }

    constructor (size: nat)
      ensures fresh(rows) && rows.Length == size && order == []
    {
      rows := new Byte[size](_ => 0);
      order := [];
    }

    method Put(at: nat, b: Byte)
      requires at < rows.Length
      modifies this, rows
      ensures rows[..] == old(rows[..])[at := b] && order == old(order) + [at]
    {
      rows[at] := b;
      order := order + [at];
    }

    /** The components of one pixel, each to the next free byte. */
    method PutPixel(at: nat, p: Pixel, alpha: bool, ghost pixel: (nat, nat) -> Pixel, ghost stride: nat)
      requires at + Channels(alpha) <= rows.Length && FilledTo(at, stride, pixel, alpha)
      requires forall k :: 0 <= k < Channels(alpha) ==> RasterByte(stride, pixel, alpha, at + k) == Component(p, k)
      modifies this, rows
      ensures FilledTo(at + Channels(alpha), stride, pixel, alpha)
    {
      hide RasterByte;
      ghost var before := rows[..];
      Put(at, ToByte(p.r));
      Put(at + 1, ToByte(p.g));
      Put(at + 2, ToByte(p.b));
      if alpha {
        Put(at + 3, ToByte(if p.a.Some? then p.a.value else 255));
      }
      ghost var now := rows[..];
      forall n | 0 <= n < at + Channels(alpha) ensures now[n] == RasterByte(stride, pixel, alpha, n) {
        if n < at {
          assert now[n] == before[n];
        } else {
          assert n == at + (n - at) && now[n] == Component(p, n - at);
        }
      }
    }

    /** The nested loop, on a new buffer: every byte of the raster is written exactly once, in order. */
    method Fill(width: nat, height: nat, pixel: (nat, nat) -> Pixel, alpha: bool)
      requires rows.Length == Stride(width, alpha) * height && order == []
      modifies this, rows
      ensures rows[..] == Raster(width, height, pixel, alpha) && order == UpTo(rows.Length)
    {
      hide Component, RasterByte, RowStart, PixelStart, Stride;
      ghost var stride := Stride(width, alpha);
      NoGaps(width, alpha, 0, 0, height);
      assert stride > 0 by { StridePositive(width, alpha); }
      for y := 0 to height
        invariant FilledTo(RowStart(width, alpha, y), stride, pixel, alpha)
      {
        RowHead(width, height, y, pixel, alpha);
        NoGaps(width, alpha, 0, y, height);
        Put(RowStart(width, alpha, y), 0);
        for x := 0 to width
          invariant FilledTo(PixelStart(width, alpha, x, y), stride, pixel, alpha)
        {
          Cell(width, height, x, y, pixel, alpha);
          NoGaps(width, alpha, x, y, height);
          PutPixel(PixelStart(width, alpha, x, y), pixel(x, y), alpha, pixel, stride);
        }
      }
    }
  }

  // ---------- The frame ----------

  function Header(width: nat, height: nat, alpha: bool): (r: Bytes)
    ensures |r| == 13
  {
    Big(width) + Big(height) + [8, if alpha then 6 else 2, 0, 0, 0]
  }

  function Encode(width: nat, height: nat, pixel: (nat, nat) -> Pixel, alpha: bool, deflate: Bytes -> Bytes)
    : Result<Bytes, Error>
  {
    var packed := deflate(Raster(width, height, pixel, alpha));
    if width >= LIMIT || height >= LIMIT || |packed| >= LIMIT then Err(RangeError)
    else Ok(SIGNATURE + (Chunk(IHDR, Header(width, height, alpha)) + (Chunk(IDAT, packed) + Chunk(IEND, []))))
  }

  method Frame(width: nat, height: nat, pixel: (nat, nat) -> Pixel, alpha: bool, deflate: Bytes -> Bytes)
    returns (r: Result<Bytes, Error>)
    ensures r == Encode(width, height, pixel, alpha, deflate)
  {
    hide Chunk, Big;
    var raster := new RasterBuffer(Stride(width, alpha) * height);
    raster.Fill(width, height, pixel, alpha);
    var rows := raster.rows;
    var header := new Byte[13](_ => 0);
    var ok := WriteUInt32BE(header, width, 0);
    if !ok { return Err(RangeError); }
    ok := WriteUInt32BE(header, height, 4);
    if !ok { return Err(RangeError); }
    header[8] := 8;
    header[9] := if alpha then 6 else 2;
    assert header[..4] == header[0..4] && header[..13] == header[..4] + header[4..8] + header[8..13];
    assert header[8..13] == [8, if alpha then 6 else 2, 0, 0, 0];
    assert header[..] == Header(width, height, alpha);
    var first := WriteChunk(IHDR, header[..]);
    var packed := WriteChunk(IDAT, deflate(rows[..]));
    if packed.Err? { return packed; }
    var last := WriteChunk(IEND, []);
    return Ok(SIGNATURE + (first.value + (packed.value + last.value)));
  }

  // ---------- A decoder that follows RFC 2083 ----------

  datatype Part = Part(kind: Bytes, data: Bytes)

  datatype Image = Image(width: nat, height: nat, alpha: bool, rows: seq<seq<Shade>>)

  const MAX_LENGTH: nat := 0x7fff_ffff

  /** One chunk with its length in bounds and its CRC right (sections 3.2 and 3.4). */
  function ReadChunk(b: Bytes): (r: Option<(Part, Bytes)>)
    ensures r.Some? ==> |r.value.1| < |b|
  {
    if |b| < 12 then None else
    var n := Unbig(b[..4]);
    if n > MAX_LENGTH || |b| < 12 + n then None else
    var part := Part(b[4..8], b[8..8 + n]);
    if b[8 + n..12 + n] != Big(CrcNumber(part.kind + part.data)) then None
    else Some((part, b[12 + n..]))
  }

  function ReadChunks(b: Bytes): Option<seq<Part>>
    decreases |b|
  {
    if b == [] then Some([]) else
    var first := ReadChunk(b);
    if first.None? then None else
    var rest := ReadChunks(first.value.1);
    if rest.None? then None else Some([first.value.0] + rest.value)
  }

  /** The data of all IDAT chunks in order; any other critical chunk here is refused (section 3.3). */
  function JoinData(parts: seq<Part>): Option<Bytes> {
    if parts == [] then Some([])
    else if parts[0].kind == IDAT then
      var rest := JoinData(parts[1..]);
      if rest.None? then None else Some(parts[0].data + rest.value)
    else if |parts[0].kind| == 4 && parts[0].kind[0] / 32 % 2 == 1 then JoinData(parts[1..])
    else None
  }

  type Shade = (Byte, Byte, Byte, Byte)

  function At(raw: Bytes, n: nat): Byte { if n < |raw| then raw[n] else 0 }

  function ShownAt(raw: Bytes, at: nat, alpha: bool): Shade {
    (At(raw, at), At(raw, at + 1), At(raw, at + 2), if alpha then At(raw, at + 3) else 255)
  }

  /** The length of a row: its filter byte, then three or four bytes a pixel (sections 2.3 and 6.2). */
  function RowLength(width: nat, alpha: bool): nat { 1 + (if alpha then 4 else 3) * width }

  /** Where row y, and pixel x in it, begin. */
  function RowAt(width: nat, alpha: bool, y: nat): nat { y * RowLength(width, alpha) }

  function PixelAt(width: nat, alpha: bool, x: nat, y: nat): nat {
    RowAt(width, alpha, y) + 1 + x * (if alpha then 4 else 3)
  }

  function Unpack(raw: Bytes, width: nat, height: nat, alpha: bool): Option<Image> {
    if |raw| != RowAt(width, alpha, height)
       || exists y :: 0 <= y < height && At(raw, RowAt(width, alpha, y)) != 0 then None
    else Some(Image(width, height, alpha, seq(height, y requires 0 <= y => seq(width, x requires 0 <= x =>
      ShownAt(raw, PixelAt(width, alpha, x, y), alpha)))))
  }

  function Decode(b: Bytes, inflate: Bytes -> Option<Bytes>): Option<Image> {
    if |b| < 8 || b[..8] != SIGNATURE then None else
    var parts := ReadChunks(b[8..]);
    if parts.None? || |parts.value| < 2 then None else
    var head, last := parts.value[0], parts.value[|parts.value| - 1];
    if head.kind != IHDR || |head.data| != 13 || last != Part(IEND, []) then None else
    var width, height := Unbig(head.data[..4]), Unbig(head.data[4..8]);
    if !(1 <= width <= MAX_LENGTH && 1 <= height <= MAX_LENGTH) then None else
    if head.data[8] != 8 || head.data[9] !in {2, 6} || head.data[10..] != [0, 0, 0] then None else
    var packed := JoinData(parts.value[1..|parts.value| - 1]);
    var raw := if packed.None? then None else inflate(packed.value);
    if raw.None? then None else Unpack(raw.value, width, height, head.data[9] == 6)
  }

  /** What is seen of a pixel: its colours, and its opacity, full unless the frame has opacities and it
      names one. */
  function Shown(p: Pixel, alpha: bool): Shade {
    (ToByte(p.r), ToByte(p.g), ToByte(p.b), if alpha && p.a.Some? then ToByte(p.a.value) else 255)
  }

  lemma ColoursKept(p: Pixel, alpha: bool)
    requires 0 <= p.r < 256 && 0 <= p.g < 256 && 0 <= p.b < 256 && (p.a.Some? ==> 0 <= p.a.value < 256)
    ensures Shown(p, alpha) == (p.r, p.g, p.b, if alpha && p.a.Some? then p.a.value else 255)
  {
  }

  /** The picture the caller described. */
  function Picture(width: nat, height: nat, pixel: (nat, nat) -> Pixel, alpha: bool): Image {
    Image(width, height, alpha,
          seq(height, y requires 0 <= y => seq(width, x requires 0 <= x => Shown(pixel(x, y), alpha))))
  }

  ghost function Ascii(s: string): Bytes { seq(|s|, i requires 0 <= i < |s| => ToByte(s[i] as int)) }

  /** The signature and the chunk names are those of sections 3.1 and 4.1. */
  lemma NamesAreThoseOfTheStandard()
    ensures SIGNATURE == [137] + Ascii("PNG\r\n") + [26] + Ascii("\n")
    ensures IHDR == Ascii("IHDR") && IDAT == Ascii("IDAT") && IEND == Ascii("IEND")
  {
  }

  // ---------- Round trip ----------

  lemma ChunkReadsBack(kind: Bytes, data: Bytes, rest: Bytes)
    requires |kind| == 4 && |data| < LIMIT
    ensures ReadChunk(Chunk(kind, data) + rest) == if |data| <= MAX_LENGTH then Some((Part(kind, data), rest)) else None
  {
    hide Big, Unbig, CrcNumber;
    var b := Chunk(kind, data) + rest;
    var n := |data|;
    BigUnbig(n);
    assert b[..4] == Big(n) && b[4..8] == kind;
    if n <= MAX_LENGTH {
      assert b[8..8 + n] == data;
      assert b[8 + n..12 + n] == Big(CrcNumber(kind + data));
      assert b[12 + n..] == rest;
    }
  }

  lemma RasterUnpacks(width: nat, height: nat, pixel: (nat, nat) -> Pixel, alpha: bool)
    ensures Unpack(Raster(width, height, pixel, alpha), width, height, alpha)
         == Some(Picture(width, height, pixel, alpha))
  {
    hide Component, RasterByte, Raster, RowStart, PixelStart, Stride, RowAt, PixelAt;
    Layout(width, alpha, height);
    var raw := Raster(width, height, pixel, alpha);
    forall y | 0 <= y < height ensures At(raw, RowAt(width, alpha, y)) == 0 {
      RowHead(width, height, y, pixel, alpha);
    }
    forall x, y | 0 <= y < height && 0 <= x < width
      ensures ShownAt(raw, PixelAt(width, alpha, x, y), alpha) == Shown(pixel(x, y), alpha)
    {
      Cell(width, height, x, y, pixel, alpha);
      ComponentsMatch(raw, PixelStart(width, alpha, x, y), pixel(x, y), alpha);
    }
    var image, picture := Unpack(raw, width, height, alpha).value, Picture(width, height, pixel, alpha);
    forall y | 0 <= y < height ensures image.rows[y] == picture.rows[y] {
    }
    assert image.rows == picture.rows;
  }

  /** Writer and reader mean the same places. */
  lemma Layout(width: nat, alpha: bool, height: nat)
    ensures Stride(width, alpha) * height == RowAt(width, alpha, height)
    ensures forall y: nat :: RowStart(width, alpha, y) == RowAt(width, alpha, y)
    ensures forall x: nat, y: nat :: PixelStart(width, alpha, x, y) == PixelAt(width, alpha, x, y)
  {
  }

  lemma ComponentsMatch(raw: Bytes, at: nat, p: Pixel, alpha: bool)
    requires at + Channels(alpha) <= |raw|
    requires forall k :: 0 <= k < Channels(alpha) ==> raw[at + k] == Component(p, k)
    ensures ShownAt(raw, at, alpha) == Shown(p, alpha)
  {
    assert raw[at + 0] == Component(p, 0) && raw[at + 1] == Component(p, 1) && raw[at + 2] == Component(p, 2);
    assert alpha ==> raw[at + 3] == Component(p, 3);
  }

  lemma HeaderReadsBack(width: nat, height: nat, alpha: bool)
    requires width < LIMIT && height < LIMIT
    ensures var h := Header(width, height, alpha);
      && Unbig(h[..4]) == width && Unbig(h[4..8]) == height && h[8] == 8 && h[10..] == [0, 0, 0]
      && h[9] in {2, 6} && (h[9] == 6 <==> alpha)
  {
    hide Big, Unbig;
    var h := Header(width, height, alpha);
    assert h[..4] == Big(width) && h[4..8] == Big(height) && h[10..] == [0, 0, 0];
    BigUnbig(width);
    BigUnbig(height);
  }

  /** The chunks of a frame, read back, or nothing when the data chunk is longer than PNG allows. */
  lemma FrameReadsBack(header: Bytes, packed: Bytes)
    requires |header| == 13 && |packed| < LIMIT
    ensures ReadChunks(Chunk(IHDR, header) + (Chunk(IDAT, packed) + Chunk(IEND, [])))
         == if |packed| <= MAX_LENGTH then Some([Part(IHDR, header), Part(IDAT, packed), Part(IEND, [])]) else None
  {
    hide Chunk, ReadChunk;
    var three := Chunk(IEND, []);
    var two := Chunk(IDAT, packed) + three;
    ChunkReadsBack(IHDR, header, two);
    ChunkReadsBack(IDAT, packed, three);
    ChunkReadsBack(IEND, [], []);
    assert three + [] == three;
    NotEmpty(IHDR, header, two);
    NotEmpty(IDAT, packed, three);
    NotEmpty(IEND, [], []);
    if |packed| <= MAX_LENGTH {
      assert ReadChunks([]) == Some([]);
      ReadsFirst(three, Part(IEND, []), []);
      ReadsFirst(two, Part(IDAT, packed), three);
      assert [Part(IEND, [])] + [] == [Part(IEND, [])];
      assert [Part(IDAT, packed)] + [Part(IEND, [])] == [Part(IDAT, packed), Part(IEND, [])];
      assert [Part(IHDR, header)] + [Part(IDAT, packed), Part(IEND, [])]
          == [Part(IHDR, header), Part(IDAT, packed), Part(IEND, [])];
    } else {
      assert ReadChunks(two) == None;
    }
    ReadsFirst(Chunk(IHDR, header) + two, Part(IHDR, header), two);
  }

  lemma ReadsFirst(b: Bytes, part: Part, rest: Bytes)
    requires b != [] && ReadChunk(b) == Some((part, rest))
    ensures ReadChunks(b) == if ReadChunks(rest).None? then None else Some([part] + ReadChunks(rest).value)
  {
  }

  lemma NotEmpty(kind: Bytes, data: Bytes, rest: Bytes)
    ensures Chunk(kind, data) + rest != []
  {
  }

  /** Main result: for every size, channel count and pixel function, and every deflate/inflate pair, a
      decoder reads the described picture back from the frame exactly when PNG can carry it: both
      dimensions are at least 1 and below 2^31, and so is the length of the compressed data. */
  lemma RoundTrip(width: nat, height: nat, pixel: (nat, nat) -> Pixel, alpha: bool,
                  deflate: Bytes -> Bytes, inflate: Bytes -> Option<Bytes>)
    requires forall b :: inflate(deflate(b)) == Some(b)
    ensures var frame := Encode(width, height, pixel, alpha, deflate);
      (frame.Ok? && Decode(frame.value, inflate) == Some(Picture(width, height, pixel, alpha)))
      <==> 1 <= width <= MAX_LENGTH && 1 <= height <= MAX_LENGTH
           && |deflate(Raster(width, height, pixel, alpha))| <= MAX_LENGTH
  {
    hide Chunk, ReadChunks, Raster, Picture, Unpack, Header, Unbig;
    var frame := Encode(width, height, pixel, alpha, deflate);
    if frame.Ok? {
      var header := Header(width, height, alpha);
      var packed := deflate(Raster(width, height, pixel, alpha));
      HeaderReadsBack(width, height, alpha);
      FrameReadsBack(header, packed);
      RasterUnpacks(width, height, pixel, alpha);
      assert frame.value[..8] == SIGNATURE;
      assert frame.value[8..] == Chunk(IHDR, header) + (Chunk(IDAT, packed) + Chunk(IEND, []));
      var parts := [Part(IHDR, header), Part(IDAT, packed), Part(IEND, [])];
      assert parts[1..|parts| - 1] == [Part(IDAT, packed)];
      OneDataChunk(packed);
    }
  }

  lemma OneDataChunk(packed: Bytes)
    ensures JoinData([Part(IDAT, packed)]) == Some(packed)
  {
    assert [Part(IDAT, packed)][1..] == [];
    assert packed + [] == packed;
  }

  /** A chunk whose type and data were damaged inside one window of 32 bits is always refused. */
  lemma DamagedChunkRefused(kind: Bytes, data: Bytes, body: Bytes, from: nat, rest: Bytes)
    requires |kind| == 4 && |data| < LIMIT && |body| == |kind + data| && body != kind + data
    requires OneBurst(Bits(body), Bits(kind + data), from)
    ensures ReadChunk(Big(|data|) + body + Big(CrcNumber(kind + data)) + rest).None?
  {
    hide Big, Unbig, Crc32, NumberOf, Bits, OneBurst;
    var b := Big(|data|) + body + Big(CrcNumber(kind + data)) + rest;
    var n := |data|;
    BigUnbig(n);
    BurstDetected(body, kind + data, from);
    assert b[..4] == Big(n) && b[4..8] + b[8..8 + n] == body;
    assert b[8 + n..12 + n] == Big(CrcNumber(kind + data));
    BigUnbig(CrcNumber(kind + data));
    BigUnbig(CrcNumber(body));
    NumberDetermines(Crc32(body), Crc32(kind + data));
  }
}
