/**
 Raw image buffers to float samples: the size and stride guard in machine words, the row loops with their running
 offsets, the choice of kernel and the byte order. A sample is kept as the bits it was built from; turning an integer
 or a bit pattern into a float is not modelled.
 */
module PixelConversion {
  import opened Basics

  type Byte = x: bv32 | x <= 0xFF witness 0

  datatype Layout = Layout(channels: nat, sampleBytes: nat, bigEndian: bool, bgr: bool)

  datatype Sample = Integer(bits: bv32) | FloatBits(bits: bv32)

  /** A row converter: every layout decision is fixed in it. */
  datatype Kernel = Kernel(sampleBytes: nat, isFloat: bool, swap: bool, channels: nat, bgr: bool)

  // ---------- Byte order ----------

  function Swapped16(v: bv32): bv32 {
    ((v >> 8) | (v << 8)) & 0xFFFF
  }

  function Swapped32(v: bv32): bv32 {
    ((v & 0xFF) << 24) | ((v & 0xFF00) << 8) | ((v >> 8) & 0xFF00) | (v >> 24)
  }

  /** Swapping twice changes nothing. */
  lemma SwapIsAnInvolution(v: bv32)
    ensures Swapped32(Swapped32(v)) == v
    ensures v <= 0xFFFF ==> Swapped16(Swapped16(v)) == v
  {
  }

  function Little16(a: Byte, b: Byte): bv32 { (a as bv32) | ((b as bv32) << 8) }

  function Little32(a: Byte, b: Byte, c: Byte, d: Byte): bv32 {
    (a as bv32) | ((b as bv32) << 8) | ((c as bv32) << 16) | ((d as bv32) << 24)
  }

  /** A swap reads the same bytes in the opposite order. */
  lemma SwapReversesBytes(a: Byte, b: Byte, c: Byte, d: Byte)
    ensures Swapped16(Little16(a, b)) == Little16(b, a)
    ensures Swapped32(Little32(a, b, c, d)) == Little32(d, c, b, a)
  {
  }

  /** What a memcpy into an integer of `size` bytes gives on a machine of either byte order. */
  function Load(data: seq<Byte>, at: nat, size: nat, nativeBig: bool): bv32
    requires size in {1, 2, 4} && at + size <= |data|
  {
    if size == 1 then data[at]
    else if size == 2 then if nativeBig then Little16(data[at + 1], data[at]) else Little16(data[at], data[at + 1])
    else if nativeBig then Little32(data[at + 3], data[at + 2], data[at + 1], data[at])
    else Little32(data[at], data[at + 1], data[at + 2], data[at + 3])
  }

  predicate IsKernel(k: Kernel) {
    && k.sampleBytes in {1, 2, 4} && k.channels in {1, 3, 4}
    && (k.swap ==> k.sampleBytes > 1) && (k.bgr ==> k.channels >= 3)
  }

  function ReadSample(data: seq<Byte>, at: nat, k: Kernel, nativeBig: bool): Sample
    requires IsKernel(k) && at + k.sampleBytes <= |data|
  {
    var stored := Load(data, at, k.sampleBytes, nativeBig);
    var value := if !k.swap then stored else if k.sampleBytes == 2 then Swapped16(stored) else Swapped32(stored);
    if k.isFloat then FloatBits(value) else Integer(value)
  }

  // ---------- Layouts and kernels ----------

  function ConverterFor(l: Layout, nativeBig: bool): Option<Kernel> {
    var swap := l.bigEndian != nativeBig;
    if l.sampleBytes == 1 then
      if l.channels == 1 then Some(Kernel(1, false, false, 1, false))
      else if l.channels == 3 || l.channels == 4 then Some(Kernel(1, false, false, l.channels, l.bgr))
      else None
    else if l.channels != 1 then None
    else if l.sampleBytes == 2 then Some(Kernel(2, false, swap, 1, false))
    else Some(Kernel(4, true, swap, 1, false))
  }

  function RawLayout(encoding: string, isBigEndian: bool): Option<Layout> {
    if encoding == "rgb8" || encoding == "bgr8" then Some(Layout(3, 1, false, encoding == "bgr8"))
    else if encoding == "rgba8" || encoding == "bgra8" then Some(Layout(4, 1, false, encoding == "bgra8"))
    else if encoding == "mono8" || encoding == "8UC1" then Some(Layout(1, 1, false, false))
    else if encoding == "mono16" || encoding == "16UC1" then Some(Layout(1, 2, isBigEndian, false))
    else if encoding == "32FC1" then Some(Layout(1, 4, isBigEndian, false))
    else None
  }

  /** A layout some encoding produces. */
  predicate Known(l: Layout) {
    && l.sampleBytes in {1, 2, 4} && l.channels in {1, 3, 4} && (l.channels > 1 ==> l.sampleBytes == 1)
    && (l.bgr ==> l.channels > 1)
  }

  lemma EveryEncodingHasAKernel(encoding: string, isBigEndian: bool, nativeBig: bool)
    ensures RawLayout(encoding, isBigEndian).Some? ==>
      var l := RawLayout(encoding, isBigEndian).value;
      && Known(l) && ConverterFor(l, nativeBig).Some?
      && (var k := ConverterFor(l, nativeBig).value;
          IsKernel(k) && k == Kernel(l.sampleBytes, l.sampleBytes == 4, k.swap, l.channels, l.bgr))
  {
  }

  /** The value of a sample does not depend on the machine: it is the stored bytes in the layout's own order. */
  lemma SampleIsInLayoutOrder(data: seq<Byte>, at: nat, l: Layout, nativeBig: bool)
    requires Known(l) && at + l.sampleBytes <= |data|
    ensures ConverterFor(l, nativeBig).Some? && IsKernel(ConverterFor(l, nativeBig).value)
    ensures ConverterFor(l, nativeBig).value.sampleBytes == l.sampleBytes
    ensures ReadSample(data, at, ConverterFor(l, nativeBig).value, nativeBig).bits
         == if l.sampleBytes == 1 then data[at]
            else if l.sampleBytes == 2 then
              if l.bigEndian then Little16(data[at + 1], data[at]) else Little16(data[at], data[at + 1])
            else if l.bigEndian then Little32(data[at + 3], data[at + 2], data[at + 1], data[at])
            else Little32(data[at], data[at + 1], data[at + 2], data[at + 3])
  {
    if l.sampleBytes == 2 {
      SwapReversesBytes(data[at], data[at + 1], 0, 0);
      SwapReversesBytes(data[at + 1], data[at], 0, 0);
    } else if l.sampleBytes == 4 {
      SwapReversesBytes(data[at], data[at + 1], data[at + 2], data[at + 3]);
      SwapReversesBytes(data[at + 3], data[at + 2], data[at + 1], data[at]);
    }
  }

  /** What each encoding's name promises: how many channels, how many bytes a sample has, whether blue comes first. */
  lemma EncodingDecides(encoding: string, isBigEndian: bool)
    ensures RawLayout(encoding, isBigEndian).Some? <==>
      encoding in {"rgb8", "bgr8", "rgba8", "bgra8", "mono8", "8UC1", "mono16", "16UC1", "32FC1"}
    ensures RawLayout(encoding, isBigEndian).Some? ==>
      var l := RawLayout(encoding, isBigEndian).value;
      && (l.bgr <==> encoding == "bgr8" || encoding == "bgra8")
      && (l.channels == 3 <==> encoding == "rgb8" || encoding == "bgr8")
      && (l.channels == 4 <==> encoding == "rgba8" || encoding == "bgra8")
      && (l.sampleBytes == 2 <==> encoding == "mono16" || encoding == "16UC1")
      && (l.sampleBytes == 4 <==> encoding == "32FC1")
      && (l.sampleBytes > 1 ==> l.bigEndian == isBigEndian)
  {
  }

  /** A sample of an image in a known encoding: its bytes in the image's own order, on any machine. */
  lemma EncodedSample(encoding: string, isBigEndian: bool, nativeBig: bool, data: seq<Byte>, at: nat)
    requires RawLayout(encoding, isBigEndian).Some? && at + RawLayout(encoding, isBigEndian).value.sampleBytes <= |data|
    ensures var l := RawLayout(encoding, isBigEndian).value;
      && ConverterFor(l, nativeBig).Some? && IsKernel(ConverterFor(l, nativeBig).value)
      && ConverterFor(l, nativeBig).value.sampleBytes == l.sampleBytes
      && var sample := ReadSample(data, at, ConverterFor(l, nativeBig).value, nativeBig);
         && (sample.FloatBits? <==> encoding == "32FC1")
         && (encoding == "mono16" || encoding == "16UC1" ==>
               sample.bits == if isBigEndian then Little16(data[at + 1], data[at]) else Little16(data[at], data[at + 1]))
         && (encoding == "32FC1" ==>
               sample.bits == if isBigEndian then Little32(data[at + 3], data[at + 2], data[at + 1], data[at])
                              else Little32(data[at], data[at + 1], data[at + 2], data[at + 3]))
         && (encoding !in {"mono16", "16UC1", "32FC1"} ==> sample.bits == data[at])
  {
    EncodingDecides(encoding, isBigEndian);
    EveryEncodingHasAKernel(encoding, isBigEndian, nativeBig);
    SampleIsInLayoutOrder(data, at, RawLayout(encoding, isBigEndian).value, nativeBig);
  }

  // ---------- Rows ----------

  /** Where the kernel's loops read channel `c` of pixel (x, y). */
  function SourceChannel(k: Kernel, c: nat): nat
    requires c < k.channels
  {
    if k.bgr && c < 3 then 2 - c else c
  }

  function PixelBytes(k: Kernel): nat {
    k.channels * k.sampleBytes
  }

  function Offset(k: Kernel, stride: nat, x: nat, y: nat, c: nat): nat
    requires IsKernel(k) && c < k.channels
  {
    y * stride + x * PixelBytes(k) + SourceChannel(k, c) * k.sampleBytes
  }

  /** The buffer holds `height` rows of `stride` bytes, each with room for `width` pixels. */
  predicate Fits(size: nat, k: Kernel, stride: nat, width: nat, height: nat) {
    width * PixelBytes(k) <= stride && stride * height <= size
  }

  lemma Mono(a: nat, b: nat, c: nat)
    ensures a <= b ==> a * c <= b * c
  {
    if a <= b {
      var d: nat := b - a;
      assert b * c == a * c + d * c;
    }
  }

  lemma Next(a: nat, c: nat)
    ensures (a + 1) * c == a * c + c
  {
  }

  lemma ChannelFits(k: Kernel, c: nat)
    requires IsKernel(k) && c < k.channels
    ensures SourceChannel(k, c) * k.sampleBytes + k.sampleBytes <= PixelBytes(k)
  {
    Mono(SourceChannel(k, c) + 1, k.channels, k.sampleBytes);
    Next(SourceChannel(k, c), k.sampleBytes);
  }

  /** Every read of an accepted frame lies inside the buffer. */
  lemma ReadsInside(size: nat, k: Kernel, stride: nat, width: nat, height: nat, x: nat, y: nat, c: nat)
    requires IsKernel(k) && Fits(size, k, stride, width, height) && x < width && y < height && c < k.channels
    ensures Offset(k, stride, x, y, c) + k.sampleBytes <= size
  {
    var p := PixelBytes(k);
    var inPixel := SourceChannel(k, c) * k.sampleBytes;
    ChannelFits(k, c);
    InsideRows(p, stride, width, height, x, y);
    assert inPixel + k.sampleBytes <= p;
    assert Offset(k, stride, x, y, c) == y * stride + x * p + inPixel;
  }

  lemma InsideRows(p: nat, stride: nat, width: nat, height: nat, x: nat, y: nat)
    requires width * p <= stride && x < width && y < height
    ensures y * stride + x * p + p <= stride * height
  {
    Mono(x + 1, width, p);
    Next(x, p);
    Mono(y + 1, height, stride);
    Next(y, stride);
  }

  /** A buffer with its geometry. */
  datatype Frame = Frame(data: seq<Byte>, k: Kernel, nativeBig: bool, stride: nat, width: nat, height: nat)

  predicate Sound(f: Frame) {
    IsKernel(f.k) && Fits(|f.data|, f.k, f.stride, f.width, f.height)
  }

  function SampleAt(f: Frame, x: nat, y: nat, c: nat): Sample
    requires Sound(f) && x < f.width && y < f.height && c < f.k.channels
  {
    ReadsInside(|f.data|, f.k, f.stride, f.width, f.height, x, y, c);
    ReadSample(f.data, Offset(f.k, f.stride, x, y, c), f.k, f.nativeBig)
  }

  /** The first `c` channels of a pixel, the first `x` pixels of a row, the first `y` rows of the image. */
  function Pixel(f: Frame, x: nat, y: nat, c: nat): (s: seq<Sample>)
    requires Sound(f) && x < f.width && y < f.height && c <= f.k.channels
    ensures |s| == c
  {
    if c == 0 then [] else Pixel(f, x, y, c - 1) + [SampleAt(f, x, y, c - 1)]
  }

  function Row(f: Frame, x: nat, y: nat): (s: seq<Sample>)
    requires Sound(f) && x <= f.width && y < f.height
    ensures |s| == x * f.k.channels
  {
    if x == 0 then [] else Row(f, x - 1, y) + Pixel(f, x - 1, y, f.k.channels)
  }

  /** How many samples a row has. */
  function RowCells(f: Frame): nat {
    f.width * f.k.channels
  }

  function Rows(f: Frame, y: nat): (s: seq<Sample>)
    requires Sound(f) && y <= f.height
    ensures |s| == y * RowCells(f)
  {
    if y == 0 then []
    else
      Next(y - 1, RowCells(f));
      Rows(f, y - 1) + Row(f, f.width, y - 1)
  }

  lemma {:induction false} PixelAt(f: Frame, x: nat, y: nat, n: nat, c: nat)
    requires Sound(f) && x < f.width && y < f.height && c < n <= f.k.channels
    ensures Pixel(f, x, y, n)[c] == SampleAt(f, x, y, c)
  {
    if c < n - 1 { PixelAt(f, x, y, n - 1, c); }
  }

  lemma {:induction false} RowAt(f: Frame, n: nat, x: nat, y: nat, c: nat)
    requires Sound(f) && x < n <= f.width && y < f.height && c < f.k.channels
    ensures 0 <= x * f.k.channels + c < |Row(f, n, y)|
    ensures Row(f, n, y)[x * f.k.channels + c] == SampleAt(f, x, y, c)
  {
    var ch := f.k.channels;
    Next(x, ch);
    Next(n - 1, ch);
    Mono(x + 1, n, ch);
    var rest := Row(f, n - 1, y);
    var last := Pixel(f, n - 1, y, ch);
    assert Row(f, n, y) == rest + last;
    if x == n - 1 {
      PixelAt(f, x, y, ch, c);
      assert (rest + last)[x * ch + c] == last[c];
    } else {
      RowAt(f, n - 1, x, y, c);
    }
  }

  /** Cell (x, y, c) of the output, row by row. */
  function Cell(f: Frame, x: nat, y: nat, c: nat): nat {
    y * RowCells(f) + (x * f.k.channels + c)
  }

  /** Every output cell is the sample its coordinates name. */
  lemma {:induction false} CellIsItsSample(f: Frame, n: nat, x: nat, y: nat, c: nat)
    requires Sound(f) && x < f.width && y < n <= f.height && c < f.k.channels
    ensures 0 <= Cell(f, x, y, c) < |Rows(f, n)|
    ensures Rows(f, n)[Cell(f, x, y, c)] == SampleAt(f, x, y, c)
  {
    RowAt(f, f.width, x, y, c);
    var w := RowCells(f);
    Next(y, w);
    Next(n - 1, w);
    Mono(y + 1, n, w);
    var rest := Rows(f, n - 1);
    var last := Row(f, f.width, n - 1);
    assert Rows(f, n) == rest + last;
    if y == n - 1 {
      assert (rest + last)[Cell(f, x, y, c)] == last[x * f.k.channels + c];
    } else {
      CellIsItsSample(f, n - 1, x, y, c);
      assert Cell(f, x, y, c) < |rest|;
    }
  }

  /** The channel loop of one pixel: reads from `pixel` on, writes from `at` on. */
  method ConvertPixel(f: Frame, x: nat, y: nat, pixel: nat, out: array<Sample>, at: nat)
    requires Sound(f) && x < f.width && y < f.height && pixel == y * f.stride + x * PixelBytes(f.k)
    requires at + f.k.channels <= out.Length
    modifies out
    ensures out[..at + f.k.channels] == old(out[..at]) + Pixel(f, x, y, f.k.channels)
  {
    for c := 0 to f.k.channels
      invariant out[..at + c] == old(out[..at]) + Pixel(f, x, y, c)
    {
      ReadsInside(|f.data|, f.k, f.stride, f.width, f.height, x, y, c);
      ghost var before := out[..at + c];
      out[at + c] := ReadSample(f.data, pixel + SourceChannel(f.k, c) * f.k.sampleBytes, f.k, f.nativeBig);
      assert out[..at + c + 1] == before + [out[at + c]];
    }
  }

  lemma Follows<T>(prefix: seq<T>, a: seq<T>, b: seq<T>)
    ensures (prefix + a) + b == prefix + (a + b)
  {
  }

  lemma NextPixel(f: Frame, x: nat)
    requires x < f.width
    ensures (x + 1) * f.k.channels == x * f.k.channels + f.k.channels <= RowCells(f)
    ensures (x + 1) * PixelBytes(f.k) == x * PixelBytes(f.k) + PixelBytes(f.k)
  {
    Next(x, f.k.channels);
    Next(x, PixelBytes(f.k));
    Mono(x + 1, f.width, f.k.channels);
  }

  method ConvertRow(f: Frame, y: nat, out: array<Sample>, start: nat) returns (end: nat)
    requires Sound(f) && y < f.height && start + RowCells(f) <= out.Length
    modifies out
    ensures end == start + RowCells(f) && out[..end] == old(out[..start]) + Row(f, f.width, y)
  {
    var pixel := y * f.stride;
    end := start;
    ghost var prefix := out[..start];
    for x := 0 to f.width
      invariant pixel == y * f.stride + x * PixelBytes(f.k) && end == start + x * f.k.channels <= out.Length
      invariant out[..end] == prefix + Row(f, x, y)
    {
      NextPixel(f, x);
      ConvertPixel(f, x, y, pixel, out, end);
      Follows(prefix, Row(f, x, y), Pixel(f, x, y, f.k.channels));
      pixel := pixel + PixelBytes(f.k);
      end := end + f.k.channels;
    }
  }

  /** convertRows: fills the output from its start. */
  method ConvertRows(f: Frame, out: array<Sample>)
    requires Sound(f) && out.Length == f.height * RowCells(f)
    modifies out
    ensures out[..] == Rows(f, f.height)
  {
    var at := 0;
    for y := 0 to f.height
      invariant at == y * RowCells(f) <= out.Length && out[..at] == Rows(f, y)
    {
      Next(y, RowCells(f));
      Mono(y + 1, f.height, RowCells(f));
      at := ConvertRow(f, y, out, at);
    }
    assert out[..at] == out[..];
  }

  // ---------- The guard, in machine words ----------

  const MAXPIXELS := 100_000_000

  /** Positive dimensions of at most 100 million pixels, each first clamped to a signed 32-bit value. */
  predicate WithinLimit(width: nat, height: nat) {
    var w := if width < 0x7FFF_FFFF then width else 0x7FFF_FFFF;
    var h := if height < 0x7FFF_FFFF then height else 0x7FFF_FFFF;
    w > 0 && h > 0 && w * h <= MAXPIXELS
  }

  /** A product in an unsigned type of modulus `word`. */
  function Mul(a: nat, b: nat, word: nat): nat
    requires word > 0
  {
    (a * b) % word
  }

  datatype Decoded = Pixels(width: nat, height: nat, channels: nat, samples: seq<Sample>) | Unsupported | Mismatch | OverBudget

  function PackedRow(width: nat, l: Layout, word: nat): nat
    requires word > 0
  {
    Mul(Mul(width, l.channels, word), l.sampleBytes, word)
  }

  /** The guard as the code computes it. */
  predicate Accepts(size: nat, stride: nat, width: nat, height: nat, l: Layout, word: nat)
    requires word > 0 && height > 0
  {
    var packed := PackedRow(width, l, word);
    var s := if stride == 0 then packed else stride;
    packed <= s && s <= (word - 1) / height && Mul(s, height, word) <= size
  }

  lemma MulExact(a: nat, b: nat, word: nat)
    requires word > 0 && a * b < word
    ensures Mul(a, b, word) == a * b
  {
  }

  lemma LimitBounds(width: nat, height: nat)
    requires WithinLimit(width, height)
    ensures 0 < width && 0 < height && width * height <= MAXPIXELS && width <= MAXPIXELS && height <= MAXPIXELS
  {
    var w := if width < 0x7FFF_FFFF then width else 0x7FFF_FFFF;
    var h := if height < 0x7FFF_FFFF then height else 0x7FFF_FFFF;
    Mono(1, h, w);
    Mono(1, w, h);
    assert w <= MAXPIXELS && h <= MAXPIXELS;
  }

  lemma Times3(a: nat, b: nat, c: nat, m: nat)
    requires a * b <= m && c <= 4
    ensures a * b * c <= 4 * m
  {
    Mono(a * b, m, c);
    Mono(c, 4, m);
  }

  lemma Regroup(a: nat, b: nat, c: nat)
    ensures a * b * c == a * (b * c)
  {
  }

  /** With any size type of at least 32 bits the packed row and the sample count are exact. */
  lemma NoProductWraps(width: nat, height: nat, l: Layout, word: nat)
    requires WithinLimit(width, height) && Known(l) && word >= 0x1_0000_0000
    ensures PackedRow(width, l, word) == width * (l.channels * l.sampleBytes)
    ensures Mul(Mul(width, height, word), l.channels, word) == width * height * l.channels
    ensures 4 * (width * height * l.channels) < word
  {
    LimitBounds(width, height);
    PackedRowExact(width, l, word);
    Times3(width, height, l.channels, MAXPIXELS);
    MulExact(width, height, word);
    MulExact(width * height, l.channels, word);
  }

  lemma PackedRowExact(width: nat, l: Layout, word: nat)
    requires width <= MAXPIXELS && Known(l) && word >= 0x1_0000_0000
    ensures PackedRow(width, l, word) == width * (l.channels * l.sampleBytes) <= 4 * MAXPIXELS
  {
    assert l.channels == 1 || l.sampleBytes == 1;
    assert l.channels * l.sampleBytes == (if l.channels == 1 then l.sampleBytes else l.channels);
    Mono(width, MAXPIXELS, l.channels);
    MulExact(width, l.channels, word);
    Regroup(width, l.channels, l.sampleBytes);
    Mono(width, MAXPIXELS, l.channels * l.sampleBytes);
    MulExact(width * l.channels, l.sampleBytes, word);
  }

  lemma GuardIsExact(stride: nat, height: nat, word: nat)
    requires height > 0 && word > 0
    ensures stride <= (word - 1) / height <==> stride * height < word
  {
    var q := (word - 1) / height;
    var r := (word - 1) % height;
    assert word - 1 == q * height + r && 0 <= r < height;
    if stride <= q {
      assert stride * height <= q * height;
    } else {
      assert (q + 1) * height <= stride * height;
    }
  }

  /** A packed row holds at least as many bytes as it has samples. */
  lemma SamplesFitRows(width: nat, height: nat, l: Layout, s: nat)
    requires Known(l) && width * (l.channels * l.sampleBytes) <= s
    ensures width * height * l.channels <= s * height
  {
    var row := width * (l.channels * l.sampleBytes);
    Regroup(width, l.channels, l.sampleBytes);
    Mono(1, l.sampleBytes, width * l.channels);
    assert width * l.channels <= row;
    Mono(width * l.channels, s, height);
    assert width * l.channels * height == width * height * l.channels;
  }

  /**
   What an accepted buffer means: no product wraps, the rows lie inside the buffer, and there are no more samples than
   bytes. It is accepted exactly when its rows fit, its stride covers a packed row and its size is a machine word.
   */
  lemma AcceptedBuffersFit(size: nat, stride: nat, width: nat, height: nat, l: Layout, word: nat)
    requires WithinLimit(width, height) && height > 0 && Known(l) && word >= 0x1_0000_0000 && size < word
    ensures var row := width * (l.channels * l.sampleBytes);
      var s := if stride == 0 then row else stride;
      && (Accepts(size, stride, width, height, l, word) <==> row <= s && s * height <= size)
      && (Accepts(size, stride, width, height, l, word) ==> width * height * l.channels <= size)
  {
    LimitBounds(width, height);
    PackedRowExact(width, l, word);
    var row := width * (l.channels * l.sampleBytes);
    var s := if stride == 0 then row else stride;
    GuardIsExact(s, height, word);
    if s * height < word { MulExact(s, height, word); }
    if row <= s { SamplesFitRows(width, height, l, s); }
  }

  /** Only the caller's limit keeps a zero height, which the guard would divide by, away from it. */
  lemma LimitExcludesZeroHeight(width: nat)
    ensures !WithinLimit(width, 0)
  {
  }

  lemma KnownHasKernel(l: Layout, nativeBig: bool)
    requires Known(l)
    ensures ConverterFor(l, nativeBig).Some?
    ensures var k := ConverterFor(l, nativeBig).value;
      IsKernel(k) && k.channels == l.channels && k.sampleBytes == l.sampleBytes
  {
  }

  method Fill(f: Frame) returns (samples: seq<Sample>)
    requires Sound(f)
    ensures samples == Rows(f, f.height)
  {
    var out := new Sample[f.height * RowCells(f)](i => Integer(0));
    ConvertRows(f, out);
    return out[..];
  }

  /** The stride in force: zero means packed rows. */
  function Stride(stride: nat, width: nat, l: Layout): nat {
    if stride == 0 then width * (l.channels * l.sampleBytes) else stride
  }

  method ToSamples(data: seq<Byte>, stride: nat, width: nat, height: nat, l: Layout, nativeBig: bool, budget: nat,
                   word: nat) returns (r: Decoded)
    requires WithinLimit(width, height) && height > 0 && Known(l) && word >= 0x1_0000_0000 && |data| < word
    ensures ConverterFor(l, nativeBig).Some?
    ensures var s := Stride(stride, width, l);
      if width * (l.channels * l.sampleBytes) > s || s * height > |data| then r == Mismatch
      else if 4 * (width * height * l.channels) > budget then r == OverBudget
      else
        var f := Frame(data, ConverterFor(l, nativeBig).value, nativeBig, s, width, height);
        Sound(f) && r == Pixels(width, height, l.channels, Rows(f, height))
  {
    KnownHasKernel(l, nativeBig);
    var k := ConverterFor(l, nativeBig);
    var packed := PackedRow(width, l, word);
    var s := if stride == 0 then packed else stride;
    LimitBounds(width, height);
    PackedRowExact(width, l, word);
    AcceptedBuffersFit(|data|, stride, width, height, l, word);
    if s < packed || s > (word - 1) / height || Mul(s, height, word) > |data| {
      return Mismatch;
    }
    NoProductWraps(width, height, l, word);
    var count := Mul(Mul(width, height, word), l.channels, word);
    MulExact(count, 4, word);
    if Mul(count, 4, word) > budget {
      return OverBudget;
    }
    var samples := Fill(Frame(data, k.value, nativeBig, s, width, height));
    return Pixels(width, height, l.channels, samples);
  }

  // ---------- Blue first ----------

  /** The same picture with the colour channels of every pixel stored the other way round. */
  ghost predicate StoredReversed(a: Frame, b: Frame) {
    && Sound(a) && Sound(b) && a.nativeBig == b.nativeBig && a.width == b.width && a.height == b.height
    && a.k == b.k.(bgr := false) && b.k.bgr
    && forall x, y, c :: 0 <= x < a.width && 0 <= y < a.height && 0 <= c < a.k.channels ==> SameCell(a, b, x, y, c)
  }

  /** Channel `c` of the one is stored where the other stores its mirror. */
  predicate SameCell(a: Frame, b: Frame, x: nat, y: nat, c: nat) {
    var mirror := if c < 3 then 2 - c else c;
    var i := a.stride * y + PixelBytes(a.k) * x + c * a.k.sampleBytes;
    var j := b.stride * y + PixelBytes(b.k) * x + mirror * b.k.sampleBytes;
    && i + a.k.sampleBytes <= |a.data| && j + a.k.sampleBytes <= |b.data|
    && a.data[i..i + a.k.sampleBytes] == b.data[j..j + a.k.sampleBytes]
  }

  lemma SameBytesSameSample(a: seq<Byte>, i: nat, b: seq<Byte>, j: nat, k: Kernel, m: Kernel, nativeBig: bool)
    requires IsKernel(k) && m == k.(bgr := m.bgr) && IsKernel(m)
    requires i + k.sampleBytes <= |a| && j + k.sampleBytes <= |b|
    requires a[i..i + k.sampleBytes] == b[j..j + k.sampleBytes]
    ensures ReadSample(a, i, k, nativeBig) == ReadSample(b, j, m, nativeBig)
  {
    var s, t := a[i..i + k.sampleBytes], b[j..j + k.sampleBytes];
    assert a[i] == s[0] == t[0] == b[j];
    if k.sampleBytes > 1 { assert a[i + 1] == s[1] == t[1] == b[j + 1]; }
    if k.sampleBytes > 2 { assert a[i + 2] == s[2] == t[2] == b[j + 2] && a[i + 3] == s[3] == t[3] == b[j + 3]; }
  }

  /** Decoding the blue-first buffer gives the samples of the red-first one. */
  lemma BlueFirstDecodesTheSame(a: Frame, b: Frame, x: nat, y: nat, c: nat)
    requires StoredReversed(a, b) && x < a.width && y < a.height && c < a.k.channels
    ensures SampleAt(a, x, y, c) == SampleAt(b, x, y, c)
  {
    assert SameCell(a, b, x, y, c);
    ReadsInside(|a.data|, a.k, a.stride, a.width, a.height, x, y, c);
    ReadsInside(|b.data|, b.k, b.stride, b.width, b.height, x, y, c);
    SameBytesSameSample(a.data, Offset(a.k, a.stride, x, y, c), b.data, Offset(b.k, b.stride, x, y, c), a.k, b.k,
                        a.nativeBig);
  }

  lemma {:induction false} BlueFirstRows(a: Frame, b: Frame, n: nat)
    requires StoredReversed(a, b) && n <= a.height
    ensures Rows(a, n) == Rows(b, n)
  {
    if n > 0 {
      BlueFirstRows(a, b, n - 1);
      BlueFirstRow(a, b, a.width, n - 1);
    }
  }

  lemma {:induction false} BlueFirstRow(a: Frame, b: Frame, x: nat, y: nat)
    requires StoredReversed(a, b) && x <= a.width && y < a.height
    ensures Row(a, x, y) == Row(b, x, y)
  {
    if x > 0 {
      BlueFirstRow(a, b, x - 1, y);
      BlueFirstPixel(a, b, x - 1, y, a.k.channels);
    }
  }

  lemma {:induction false} BlueFirstPixel(a: Frame, b: Frame, x: nat, y: nat, c: nat)
    requires StoredReversed(a, b) && x < a.width && y < a.height && c <= a.k.channels
    ensures Pixel(a, x, y, c) == Pixel(b, x, y, c)
  {
    if c > 0 {
      BlueFirstPixel(a, b, x, y, c - 1);
      BlueFirstDecodesTheSame(a, b, x, y, c - 1);
    }
  }
}
