/** The RIFF/WAVE reader in front of the speech engines, and the writer its fixtures come from. */
module Wav {
  import opened Types

  type byte = b: int | 0 <= b < 256
  type i16 = n: int | -32768 <= n < 32768
  type u32 = n: int | 0 <= n < 0x1_0000_0000

  datatype Error =
    | NotRiff
    | FmtTooSmall
    | MissingFmt
    | MissingData
    | ZeroChannels
    | UnsupportedFormat(format: int)
    | UnsupportedDepth(bits: int)

  datatype Result<+T> = Ok(value: T) | Err(error: Error)

  datatype Fmt = Fmt(format: nat, channels: nat, rate: nat, bits: nat)

  datatype WavData = WavData(sampleRate: nat, channels: nat, samples: seq<real>)

  /** What the walk over the chunks has met so far. */
  datatype Found = Found(fmt: Option<Fmt>, data: Option<seq<byte>>)

  const RIFF: seq<byte> := [0x52, 0x49, 0x46, 0x46]
  const WAVE: seq<byte> := [0x57, 0x41, 0x56, 0x45]
  const FMT: seq<byte> := [0x66, 0x6D, 0x74, 0x20]
  const DATA: seq<byte> := [0x64, 0x61, 0x74, 0x61]

  // ------------------------------------------------------- little-endian words

  /** 256 to the power of `k`. */
  function Bound(k: nat): (r: nat)
    ensures r >= 1
  {
    if k == 0 then 1 else 256 * Bound(k - 1)
  }

  /** Bytes as a number, the least significant first. */
  function Read(b: seq<byte>): (n: nat)
    ensures n < Bound(|b|)
  {
    if b == [] then 0 else b[0] as int + 256 * Read(b[1..])
  }

  /** The `k` bytes of a number; what does not fit is cut off. */
  function Print(n: nat, k: nat): (b: seq<byte>)
    ensures |b| == k
  {
    if k == 0 then [] else [n % 256] + Print(n / 256, k - 1)
  }

  lemma {:induction false} ReadPrinted(n: nat, k: nat)
    ensures Read(Print(n, k)) == n % Bound(k)
  {
    if k > 0 {
      ReadPrinted(n / 256, k - 1);
      assert Print(n, k)[1..] == Print(n / 256, k - 1);
      DigitOff(n, Bound(k - 1));
    }
  }

  lemma DigitOff(n: nat, m: nat)
    requires m >= 1
    ensures n % (256 * m) == n % 256 + 256 * (n / 256 % m)
  {
    var q, r := n / 256, n % 256;
    var low := q % m;
    assert n == 256 * (m * (q / m) + low) + r;
    assert n == (256 * m) * (q / m) + (256 * low + r);
    RemainderIs(n, 256 * m, q / m, 256 * low + r);
  }

  lemma RemainderIs(n: int, d: int, q: int, r: int)
    requires d > 0 && n == d * q + r && 0 <= r < d
    ensures n % d == r
  {
    var k := q - n / d;
    assert d * k == n % d - r;
    assert k >= 1 ==> d * k >= d;
    assert k <= -1 ==> d * k <= -d;
  }

  lemma Bounds()
    ensures Bound(1) == 0x100 && Bound(2) == 0x1_0000 && Bound(3) == 0x100_0000 && Bound(4) == 0x1_0000_0000
  {
    assert Bound(0) == 1 && Bound(1) == 0x100 && Bound(2) == 0x1_0000 && Bound(3) == 0x100_0000;
  }

  lemma U16ReadBack(n: nat)
    requires n < 0x1_0000
    ensures Read(Print(n, 2)) == n
  {
    Bounds();
    ReadPrinted(n, 2);
  }

  lemma U32ReadBack(n: u32)
    ensures Read(Print(n, 4)) == n
  {
    Bounds();
    ReadPrinted(n, 4);
  }

  /** Two's complement, `half` being the first value read as negative. */
  function Signed(n: int, half: int): int {
    if n >= half then n - 2 * half else n
  }

  function Unsigned(n: int, half: int): nat
    requires -half <= n < half
  {
    if n < 0 then n + 2 * half else n
  }

  function PrintI16(s: i16): (b: seq<byte>)
    ensures |b| == 2
  {
    Print(Unsigned(s, 0x8000), 2)
  }

  lemma I16ReadBack(s: i16)
    ensures Signed(Read(PrintI16(s)), 0x8000) == s
  {
    U16ReadBack(Unsigned(s, 0x8000));
  }

  // ------------------------------------------------------------------ samples

  function Pcm8(data: seq<byte>): seq<real> {
    seq(|data|, i requires 0 <= i < |data| => (data[i] as real - 128.0) / 128.0)
  }

  /** Whole samples of `k` bytes each, over full scale. */
  function Pcm(data: seq<byte>, k: nat, half: nat): seq<real>
    requires k >= 1 && half > 0
  {
    seq(|data| / k, i requires 0 <= i < |data| / k => Signed(Read(Group(data, k, i)), half) as real / half as real)
  }

  function Group(data: seq<byte>, k: nat, i: nat): (b: seq<byte>)
    requires k >= 1 && i < |data| / k
    ensures |b| == k
  {
    GroupFits(|data|, k, i);
    data[k * i..k * i + k]
  }

  lemma GroupFits(n: nat, k: nat, i: nat)
    requires k >= 1 && i < n / k
    ensures 0 <= k * i && k * i + k <= n
  {
    assert k * (i + 1) <= k * (n / k) <= n;
  }

  function Float32(data: seq<byte>, float: seq<byte> -> real): seq<real> {
    seq(|data| / 4, i requires 0 <= i < |data| / 4 => float(Group(data, 4, i)))
  }

  /** Interleaved samples; `float` reads four bytes as an IEEE number. */
  function Decode(data: seq<byte>, bits: int, isFloat: bool, float: seq<byte> -> real): Result<seq<real>> {
    if isFloat then if bits == 32 then Ok(Float32(data, float)) else Err(UnsupportedDepth(bits))
    else match bits
         case 8 => Ok(Pcm8(data))
         case 16 => Ok(Pcm(data, 2, 0x8000))
         case 24 => Ok(Pcm(data, 3, 0x80_0000))
         case 32 => Ok(Pcm(data, 4, 0x8000_0000))
         case _ => Err(UnsupportedDepth(bits))
  }

  function Total(frame: seq<real>): real {
    if frame == [] then 0.0 else frame[0] + Total(frame[1..])
  }

  function Averages(interleaved: seq<real>, channels: nat): (mono: seq<real>)
    requires channels > 0
  {
    if |interleaved| < channels then []
    else [Total(interleaved[..channels]) / channels as real] + Averages(interleaved[channels..], channels)
  }

  function Times(d: nat, k: nat): nat {
    d * k
  }

  lemma OneMore(d: nat, k: nat)
    ensures Times(d, k + 1) == Times(d, k) + d && Times(d, 0) == 0
  {
  }

  /** Frame `i` gives its average, and only a frame cut short gives none. */
  lemma {:induction false} AveragesAt(interleaved: seq<real>, channels: nat, i: nat)
    requires channels > 0
    ensures var mono := Averages(interleaved, channels);
            && |interleaved| - channels < Times(channels, |mono|) <= |interleaved|
            && (i < |mono| ==>
                  var start := Times(channels, i);
                  start + channels <= |interleaved|
                      && mono[i] == Total(interleaved[start..start + channels]) / channels as real)
    decreases |interleaved|
  {
    var mono := Averages(interleaved, channels);
    OneMore(channels, 0);
    if |interleaved| >= channels {
      var rest := interleaved[channels..];
      var earlier := if i > 0 then i - 1 else 0;
      AveragesAt(rest, channels, earlier);
      OneMore(channels, |mono| - 1);
      if i > 0 {
        OneMore(channels, earlier);
        if i < |mono| {
          var start := Times(channels, earlier);
          assert interleaved[start + channels..start + channels + channels] == rest[start..start + channels];
        }
      }
    }
  }

  function Downmix(interleaved: seq<real>, channels: nat): seq<real> {
    if channels <= 1 then interleaved else Averages(interleaved, channels)
  }

  // ------------------------------------------------------------------- walk

  function ParseFmt(body: seq<byte>): Fmt
    requires |body| >= 16
  {
    Fmt(Read(body[0..2]), Read(body[2..4]), Read(body[4..8]), Read(body[14..16]))
  }

  /** What one chunk adds: a later `fmt ` or `data` replaces an earlier one. */
  function Meet(id: seq<byte>, body: seq<byte>, found: Found): Result<Found> {
    if id == FMT then if |body| < 16 then Err(FmtTooSmall) else Ok(found.(fmt := Some(ParseFmt(body))))
    else if id == DATA then Ok(found.(data := Some(body)))
    else Ok(found)
  }

  /** The bytes of a chunk whose header stands at `pos`: cut short by the end of the file. */
  function Body(bytes: seq<byte>, pos: nat): (body: seq<byte>)
    requires pos + 8 <= |bytes|
  {
    var end := pos + 8 + Read(bytes[pos + 4..pos + 8]);
    bytes[pos + 8..if end < |bytes| then end else |bytes|]
  }

  function Next(bytes: seq<byte>, pos: nat): nat
    requires pos + 8 <= |bytes|
  {
    var size := Read(bytes[pos + 4..pos + 8]);
    pos + 8 + size + size % 2
  }

  function Walk(bytes: seq<byte>, pos: nat, found: Found): Result<Found>
    decreases |bytes| - pos
  {
    if pos + 8 > |bytes| then Ok(found)
    else
      match Meet(bytes[pos..pos + 4], Body(bytes, pos), found)
      case Err(e) => Err(e)
      case Ok(more) => Walk(bytes, Next(bytes, pos), more)
  }

  datatype Chunk = Chunk(id: seq<byte>, body: seq<byte>)

  /** One chunk of the walk. */
  lemma WalkOne(bytes: seq<byte>, pos: nat, found: Found, c: Chunk, next: nat)
    requires pos + 8 <= |bytes| && bytes[pos..pos + 4] == c.id && Body(bytes, pos) == c.body && Next(bytes, pos) == next
    ensures var met := Meet(c.id, c.body, found);
            Walk(bytes, pos, found) == if met.Err? then met else Walk(bytes, next, met.value)
  {
  }

  function Finish(found: Found, float: seq<byte> -> real): Result<WavData> {
    if found.fmt.None? then Err(MissingFmt)
    else if found.data.None? then Err(MissingData)
    else
      var fmt := found.fmt.value;
      if fmt.channels == 0 then Err(ZeroChannels)
      else if fmt.format != 3 && fmt.format != 1 && fmt.format != 0xFFFE then Err(UnsupportedFormat(fmt.format))
      else match Decode(found.data.value, fmt.bits, fmt.format == 3, float)
           case Err(e) => Err(e)
           case Ok(interleaved) =>
             Ok(WavData(fmt.rate, fmt.channels, Downmix(interleaved, fmt.channels)))
  }

  function Parsed(bytes: seq<byte>, float: seq<byte> -> real): Result<WavData> {
    if |bytes| < 12 || bytes[0..4] != RIFF || bytes[8..12] != WAVE then Err(NotRiff)
    else Concluded(Walk(bytes, 12, Found(None, None)), float)
  }

  function Concluded(walked: Result<Found>, float: seq<byte> -> real): Result<WavData> {
    if walked.Err? then Err(walked.error) else Finish(walked.value, float)
  }

  method ParseWav(bytes: seq<byte>, float: seq<byte> -> real) returns (r: Result<WavData>)
    ensures r == Parsed(bytes, float)
  {
    if |bytes| < 12 || bytes[0..4] != RIFF || bytes[8..12] != WAVE {
      return Err(NotRiff);
    }
    var walked := WalkChunks(bytes);
    match walked {
      case Err(e) => r := Err(e);
      case Ok(found) => r := Finish(found, float);
    }
  }

  method WalkChunks(bytes: seq<byte>) returns (r: Result<Found>)
    requires |bytes| >= 12
    ensures r == Walk(bytes, 12, Found(None, None))
  {
    var fmt: Option<Fmt>, data: Option<seq<byte>> := None, None;
    var pos: nat := 12;
    ghost var whole := Walk(bytes, pos, Found(None, None));
    while pos + 8 <= |bytes|
      invariant Walk(bytes, pos, Found(fmt, data)) == whole
      decreases |bytes| - pos
    {
      var id, body := bytes[pos..pos + 4], Body(bytes, pos);
      WalkOne(bytes, pos, Found(fmt, data), Chunk(id, body), Next(bytes, pos));
      if id == FMT {
        if |body| < 16 {
          return Err(FmtTooSmall);
        }
        fmt := Some(ParseFmt(body));
      } else if id == DATA {
        data := Some(body);
      }
      pos := Next(bytes, pos);
    }
    r := Ok(Found(fmt, data));
  }

  // -------------------------------------------------------------- chunk lists

  predicate WellFormed(c: Chunk) {
    |c.id| == 4 && |c.body| < 0x1_0000_0000
  }

  /** Identifier, size, body, and a pad byte after an odd one. */
  function PrintChunk(c: Chunk): (b: seq<byte>)
    requires WellFormed(c)
  {
    c.id + Print(|c.body|, 4) + c.body + (if |c.body| % 2 == 1 then [0] else [])
  }

  predicate AllWellFormed(chunks: seq<Chunk>) {
    forall i | 0 <= i < |chunks| :: WellFormed(chunks[i])
  }

  function PrintAll(chunks: seq<Chunk>): seq<byte>
    requires AllWellFormed(chunks)
  {
    if chunks == [] then [] else PrintChunk(chunks[0]) + PrintAll(chunks[1..])
  }

  /** A RIFF file; nobody reads the size in its header. */
  function File(size: u32, chunks: seq<Chunk>): seq<byte>
    requires AllWellFormed(chunks)
  {
    RIFF + Print(size, 4) + WAVE + PrintAll(chunks)
  }

  /** The chunks met one after the other. */
  function Gathered(chunks: seq<Chunk>, found: Found): Result<Found> {
    if chunks == [] then Ok(found)
    else
      match Meet(chunks[0].id, chunks[0].body, found)
      case Err(e) => Err(e)
      case Ok(more) => Gathered(chunks[1..], more)
  }

  lemma SliceOf<T>(s: seq<T>, p: nat, a: nat, b: nat)
    requires p <= a <= b <= |s|
    ensures s[a..b] == s[p..][a - p..b - p] && s[b..] == s[p..][b - p..]
  {
  }

  lemma BodyIs(bytes: seq<byte>, pos: nat, size: nat)
    requires pos + 8 + size <= |bytes| && Read(bytes[pos + 4..pos + 8]) == size
    ensures Body(bytes, pos) == bytes[pos + 8..pos + 8 + size] && Next(bytes, pos) == pos + 8 + size + size % 2
  {
  }

  /** A printed chunk is read back whole, and the walk lands right behind it. */
  lemma ChunkReadBack(bytes: seq<byte>, pos: nat, c: Chunk, rest: seq<byte>)
    requires WellFormed(c) && pos <= |bytes| && bytes[pos..] == PrintChunk(c) + rest
    ensures pos + 8 <= |bytes| && bytes[pos..pos + 4] == c.id && Body(bytes, pos) == c.body
    ensures Next(bytes, pos) <= |bytes| && bytes[Next(bytes, pos)..] == rest
  {
    var size := |c.body|;
    var pad: seq<byte> := if size % 2 == 1 then [0] else [];
    assert PrintChunk(c) == c.id + Print(size, 4) + c.body + pad;
    U32ReadBack(size);
    HeaderReadBack(bytes, pos, c.id, Print(size, 4), c.body, pad, rest);
    BodyIs(bytes, pos, size);
  }

  lemma HeaderReadBack(bytes: seq<byte>, pos: nat, id: seq<byte>, size: seq<byte>, body: seq<byte>, pad: seq<byte>,
        rest: seq<byte>)
    requires |id| == |size| == 4 && pos <= |bytes| && bytes[pos..] == id + size + body + pad + rest
    ensures pos + 8 + |body| + |pad| <= |bytes|
    ensures bytes[pos..pos + 4] == id && bytes[pos + 4..pos + 8] == size && bytes[pos + 8..pos + 8 + |body|] == body
    ensures bytes[pos + 8 + |body| + |pad|..] == rest
  {
    var tail := bytes[pos..];
    assert |tail| == 8 + |body| + |pad| + |rest|;
    SliceOf(bytes, pos, pos, pos + 4);
    SliceOf(bytes, pos, pos + 4, pos + 8);
    SliceOf(bytes, pos, pos + 8, pos + 8 + |body|);
    SliceOf(bytes, pos, pos + 8, pos + 8 + |body| + |pad|);
    assert tail[0..4] == id && tail[4..8] == size && tail[8..8 + |body|] == body && tail[8 + |body| + |pad|..] == rest;
  }

  lemma SizeReadBack(bytes: seq<byte>, off: nat, id: seq<byte>, size: u32, rest: seq<byte>)
    requires |id| == 4 && 4 <= off <= |bytes| && bytes[off - 4..] == id + Print(size, 4) + rest
    ensures off + 4 <= |bytes| && Read(bytes[off..off + 4]) == size
  {
    SliceOf(bytes, off - 4, off, off + 4);
    assert (id + Print(size, 4) + rest)[4..8] == Print(size, 4);
    U32ReadBack(size);
  }

  lemma {:induction false} WalkGathers(bytes: seq<byte>, pos: nat, chunks: seq<Chunk>, found: Found)
    requires AllWellFormed(chunks) && pos <= |bytes| && bytes[pos..] == PrintAll(chunks)
    ensures Walk(bytes, pos, found) == Gathered(chunks, found)
    decreases |chunks|
  {
    if chunks != [] {
      ChunkReadBack(bytes, pos, chunks[0], PrintAll(chunks[1..]));
      var met := Meet(chunks[0].id, chunks[0].body, found);
      if met.Ok? {
        WalkGathers(bytes, Next(bytes, pos), chunks[1..], met.value);
      }
    }
  }

  lemma FileHeader(size: u32, chunks: seq<Chunk>)
    requires AllWellFormed(chunks)
    ensures var bytes := File(size, chunks);
            |bytes| >= 12 && bytes[0..4] == RIFF && bytes[8..12] == WAVE && bytes[12..] == PrintAll(chunks)
  {
  }

  /** Parsing a printed file reads its chunks in order, whatever they are. */
  lemma ParsedGathers(size: u32, chunks: seq<Chunk>, float: seq<byte> -> real)
    requires AllWellFormed(chunks)
    ensures Parsed(File(size, chunks), float) == Concluded(Gathered(chunks, Found(None, None)), float)
  {
    FileHeader(size, chunks);
    WalkGathers(File(size, chunks), 12, chunks, Found(None, None));
  }

  function LastBody(chunks: seq<Chunk>, id: seq<byte>): Option<seq<byte>> {
    if chunks == [] then None
    else if chunks[|chunks| - 1].id == id then Some(chunks[|chunks| - 1].body)
    else LastBody(chunks[..|chunks| - 1], id)
  }

  /** No format chunk too short to read. */
  predicate FmtsReadable(chunks: seq<Chunk>) {
    forall i | 0 <= i < |chunks| && chunks[i].id == FMT :: |chunks[i].body| >= 16
  }

  lemma {:induction false} GatheredAppend(a: seq<Chunk>, b: seq<Chunk>, found: Found)
    ensures Gathered(a + b, found)
            == match Gathered(a, found) case Err(e) => Err(e) case Ok(more) => Gathered(b, more)
  {
    if a == [] {
      assert a + b == b;
    } else {
      assert (a + b)[1..] == a[1..] + b;
      var met := Meet(a[0].id, a[0].body, found);
      if met.Ok? { GatheredAppend(a[1..], b, met.value); }
    }
  }

  /** The last readable format and the last data win; a format too short is refused wherever it stands. */
  lemma {:induction false} LastOnesWin(chunks: seq<Chunk>)
    ensures Gathered(chunks, Found(None, None)).Ok? <==> FmtsReadable(chunks)
    ensures FmtsReadable(chunks) ==>
              var found := Gathered(chunks, Found(None, None)).value;
              && found.data == LastBody(chunks, DATA)
              && (found.fmt.None? <==> LastBody(chunks, FMT).None?)
              && (found.fmt.Some? ==>
                    && |LastBody(chunks, FMT).value| >= 16
                    && found.fmt.value == ParseFmt(LastBody(chunks, FMT).value))
    decreases |chunks|
  {
    if chunks != [] {
      var init, last := chunks[..|chunks| - 1], chunks[|chunks| - 1];
      assert chunks == init + [last];
      LastOnesWin(init);
      GatheredAppend(init, [last], Found(None, None));
      assert forall more :: Gathered([last], more) == Meet(last.id, last.body, more);
      assert FmtsReadable(chunks) <==> FmtsReadable(init) && (last.id == FMT ==> |last.body| >= 16);
    }
  }

  lemma {:induction false} GatheredSkips(a: seq<Chunk>, extra: Chunk, b: seq<Chunk>, found: Found)
    requires extra.id != FMT && extra.id != DATA
    ensures Gathered(a + [extra] + b, found) == Gathered(a + b, found)
  {
    var longer, shorter := a + [extra] + b, a + b;
    if a == [] {
      assert longer[0] == extra && longer[1..] == shorter == b;
    } else {
      assert longer[0] == shorter[0] == a[0];
      assert longer[1..] == a[1..] + [extra] + b && shorter[1..] == a[1..] + b;
      var met := Meet(a[0].id, a[0].body, found);
      if met.Ok? { GatheredSkips(a[1..], extra, b, met.value); }
    }
  }

  /** A chunk of any other kind changes nothing, wherever it is put. */
  lemma UnknownChunkIsSkipped(size: u32, newSize: u32, a: seq<Chunk>, extra: Chunk, b: seq<Chunk>,
        float: seq<byte> -> real)
    requires AllWellFormed(a) && WellFormed(extra) && AllWellFormed(b) && extra.id != FMT && extra.id != DATA
    ensures Parsed(File(newSize, a + [extra] + b), float) == Parsed(File(size, a + b), float)
  {
    ParsedGathers(size, a + b, float);
    ParsedGathers(newSize, a + [extra] + b, float);
    GatheredSkips(a, extra, b, Found(None, None));
  }

  // ------------------------------------------------------------ sample range

  lemma PcmInUnit(data: seq<byte>, k: nat, half: nat)
    requires k >= 1 && half > 0 && Bound(k) == 2 * half
    ensures InUnit(Pcm(data, k, half))
  {
    forall i | 0 <= i < |data| / k
      ensures -1.0 <= Pcm(data, k, half)[i] <= 1.0
    {
      QuotientInUnit(Signed(Read(Group(data, k, i)), half) as real, half as real);
    }
  }

  lemma DecodeInUnit(data: seq<byte>, bits: int, float: seq<byte> -> real)
    requires Decode(data, bits, false, float).Ok?
    ensures InUnit(Decode(data, bits, false, float).value)
  {
    Bounds();
    match bits
    case 8 =>
      assert InUnit(Pcm8(data));
    case 16 =>
      PcmInUnit(data, 2, 0x8000);
    case 24 =>
      PcmInUnit(data, 3, 0x80_0000);
    case 32 =>
      PcmInUnit(data, 4, 0x8000_0000);
  }

  /** Integer samples of any depth stay within [-1, 1], and averaging channels keeps them there. */
  lemma PcmStaysInRange(found: Found, float: seq<byte> -> real)
    requires Finish(found, float).Ok? && found.fmt.value.format != 3
    ensures InUnit(Finish(found, float).value.samples)
  {
    var fmt := found.fmt.value;
    DecodeInUnit(found.data.value, fmt.bits, float);
    var interleaved := Decode(found.data.value, fmt.bits, false, float).value;
    if fmt.channels > 1 { AveragesInUnit(interleaved, fmt.channels); }
  }

  ghost predicate InUnit(samples: seq<real>) {
    forall i | 0 <= i < |samples| :: -1.0 <= samples[i] <= 1.0
  }

  lemma {:induction false} TotalInUnit(frame: seq<real>)
    requires InUnit(frame)
    ensures -(|frame| as real) <= Total(frame) <= |frame| as real
  {
    if frame != [] { TotalInUnit(frame[1..]); }
  }

  lemma {:induction false} AveragesInUnit(interleaved: seq<real>, channels: nat)
    requires channels > 0 && InUnit(interleaved)
    ensures InUnit(Averages(interleaved, channels))
  {
    if |interleaved| >= channels {
      var frame := interleaved[..channels];
      TotalInUnit(frame);
      QuotientInUnit(Total(frame), channels as real);
      AveragesInUnit(interleaved[channels..], channels);
    }
  }

  lemma QuotientInUnit(x: real, y: real)
    requires y > 0.0 && -y <= x <= y
    ensures -1.0 <= x / y <= 1.0
  {
    var q := x / y;
    assert q * y == x;
  }

  // ------------------------------------------------------------------ writer

  /** What the writer counts: the size in bytes, cut to 32 bits. */
  function DataLen(samples: seq<i16>): (n: u32) {
    2 * |samples| % 0x1_0000_0000
  }

  lemma DataLenIs(samples: seq<i16>)
    ensures DataLen(samples) % 2 == 0 && DataLen(samples) <= 2 * |samples|
    ensures if |samples| < 0x8000_0000 then DataLen(samples) == 2 * |samples|
            else DataLen(samples) + 0x1_0000_0000 <= 2 * |samples|
  {
    var q := 2 * |samples| / 0x1_0000_0000;
    assert 2 * |samples| == 0x1_0000_0000 * q + DataLen(samples);
    assert DataLen(samples) == 2 * (|samples| - 0x8000_0000 * q);
  }

  function FmtBody(rate: u32): seq<byte> {
    Print(1, 2) + Print(1, 2) + Print(rate, 4) + Print(2 * rate % 0x1_0000_0000, 4) + Print(2, 2) + Print(16, 2)
  }

  function PrintSamples(samples: seq<i16>): (b: seq<byte>)
    ensures |b| == 2 * |samples|
  {
    if samples == [] then [] else PrintSamples(samples[..|samples| - 1]) + PrintI16(samples[|samples| - 1])
  }

  function DataPart(m: u32, printed: seq<byte>): seq<byte> {
    DATA + Print(m, 4) + printed
  }

  function Written(rate: u32, samples: seq<i16>): seq<byte> {
    (RIFF + Print((36 + DataLen(samples)) % 0x1_0000_0000, 4) + WAVE)
    + (FMT + Print(16, 4) + FmtBody(rate) + DataPart(DataLen(samples), PrintSamples(samples)))
  }

  /** A 32-bit sum the writer forms does not fit. */
  predicate Overflows(rate: u32, samples: seq<i16>) {
    2 * rate >= 0x1_0000_0000 || 36 + DataLen(samples) >= 0x1_0000_0000
  }

  /** What is written; with overflow checks, as in a debug build, the writer stops instead of wrapping. */
  function Output(rate: u32, samples: seq<i16>, checked: bool): Option<seq<byte>> {
    if checked && Overflows(rate, samples) then None else Some(Written(rate, samples))
  }

  method WritePcm16Mono(rate: u32, samples: seq<i16>, checked: bool) returns (output: Option<seq<byte>>)
    ensures output == Output(rate, samples, checked)
  {
    var dataLen: u32 := 2 * |samples| % 0x1_0000_0000;
    if checked && (2 * rate >= 0x1_0000_0000 || 36 + dataLen >= 0x1_0000_0000) {
      return None;
    }
    var buf := Headers(rate, samples, dataLen);
    buf := AppendSamples(buf, samples);
    output := Some(buf);
  }

  method Headers(rate: u32, ghost samples: seq<i16>, dataLen: u32) returns (buf: seq<byte>)
    requires dataLen == DataLen(samples)
    ensures buf + PrintSamples(samples) == Written(rate, samples)
  {
    var byteRate: u32 := 2 * rate % 0x1_0000_0000;
    buf := RIFF + Print((36 + dataLen) % 0x1_0000_0000, 4) + WAVE;
    ghost var riff := buf;
    var fmt := Print(1, 2) + Print(1, 2) + Print(rate, 4) + Print(byteRate, 4) + Print(2, 2) + Print(16, 2);
    var size, length := Print(16, 4), Print(dataLen, 4);
    buf := buf + FMT + size + fmt + DATA + length;
    WrittenInParts(rate, samples, riff, size, fmt, length);
  }

  lemma WrittenInParts(rate: u32, samples: seq<i16>, riff: seq<byte>, size: seq<byte>, fmt: seq<byte>,
        length: seq<byte>)
    requires riff == RIFF + Print((36 + DataLen(samples)) % 0x1_0000_0000, 4) + WAVE
    requires size == Print(16, 4) && fmt == FmtBody(rate) && length == Print(DataLen(samples), 4)
    ensures riff + FMT + size + fmt + DATA + length + PrintSamples(samples) == Written(rate, samples)
  {
    Regroup(riff, FMT, size, fmt, DATA, length, PrintSamples(samples));
  }

  method AppendSamples(head: seq<byte>, samples: seq<i16>) returns (buf: seq<byte>)
    ensures buf == head + PrintSamples(samples)
  {
    buf := head;
    for i := 0 to |samples|
      invariant buf == head + PrintSamples(samples[..i])
    {
      PrintOneMore(samples, i);
      buf := buf + PrintI16(samples[i]);
    }
    assert samples[..|samples|] == samples;
  }

  lemma PrintOneMore(samples: seq<i16>, i: nat)
    requires i < |samples|
    ensures PrintSamples(samples[..i + 1]) == PrintSamples(samples[..i]) + PrintI16(samples[i])
  {
    assert samples[..i + 1][..i] == samples[..i];
  }

  lemma Regroup(a: seq<byte>, b: seq<byte>, c: seq<byte>, d: seq<byte>, e: seq<byte>, f: seq<byte>, g: seq<byte>)
    ensures a + b + c + d + e + f + g == a + (b + c + d + (e + f + g))
  {
  }

  function Expected(rate: u32, samples: seq<i16>): WavData {
    WavData(rate, 1, seq(|samples|, i requires 0 <= i < |samples| => samples[i] as real / 32768.0))
  }

  lemma {:induction false} SampleBytes(samples: seq<i16>, i: nat)
    requires i < |samples|
    ensures Group(PrintSamples(samples), 2, i) == PrintI16(samples[i])
    decreases |samples|
  {
    var init := samples[..|samples| - 1];
    if i < |init| {
      SampleBytes(init, i);
      assert Group(PrintSamples(samples), 2, i) == Group(PrintSamples(init), 2, i);
    }
  }

  lemma SamplesReadBack(rate: u32, samples: seq<i16>)
    ensures Pcm(PrintSamples(samples), 2, 0x8000) == Expected(rate, samples).samples
  {
    forall i | 0 <= i < |samples|
      ensures Pcm(PrintSamples(samples), 2, 0x8000)[i] == samples[i] as real / 32768.0
    {
      SampleBytes(samples, i);
      I16ReadBack(samples[i]);
    }
  }

  lemma FmtReadBack(rate: u32)
    ensures |FmtBody(rate)| == 16 && ParseFmt(FmtBody(rate)) == Fmt(1, 1, rate, 16)
  {
    U16ReadBack(1);
    U16ReadBack(16);
    U32ReadBack(rate);
    Fields(Print(1, 2), Print(1, 2), Print(rate, 4), Print(2 * rate % 0x1_0000_0000, 4), Print(2, 2), Print(16, 2));
  }

  lemma Fields(a: seq<byte>, b: seq<byte>, c: seq<byte>, d: seq<byte>, e: seq<byte>, f: seq<byte>)
    requires |a| == |b| == |e| == |f| == 2 && |c| == |d| == 4
    ensures var all := a + b + c + d + e + f;
            |all| == 16 && ParseFmt(all) == Fmt(Read(a), Read(b), Read(c), Read(f))
  {
    var all := a + b + c + d + e + f;
    assert all[0..2] == a && all[2..4] == b && all[4..8] == c && all[14..16] == f;
  }

  lemma MeetHeaders(rate: u32, data: seq<byte>)
    ensures Meet(FMT, FmtBody(rate), Found(None, None)) == Ok(Found(Some(Fmt(1, 1, rate, 16)), None))
    ensures Meet(DATA, data, Found(Some(Fmt(1, 1, rate, 16)), None)) == Ok(Found(Some(Fmt(1, 1, rate, 16)), Some(data)))
  {
    FmtReadBack(rate);
    assert FMT[0] != DATA[0];
  }

  lemma DataHeaderReadBack(bytes: seq<byte>, m: u32, printed: seq<byte>)
    requires |bytes| >= 36 && bytes[36..] == DataPart(m, printed) && m <= |printed| && m % 2 == 0
    ensures |bytes| == 44 + |printed| && bytes[36..40] == DATA
    ensures Body(bytes, 36) == printed[..m] && Next(bytes, 36) == 44 + m
  {
    var part := DataPart(m, printed);
    SliceOf(bytes, 36, 36, 40);
    assert part[0..4] == DATA;
    SizeReadBack(bytes, 40, DATA, m, printed);
    SliceOf(bytes, 36, 44, 44 + m);
    assert part[8..8 + m] == printed[..m];
  }

  /** The two headers are read back; the data is what the size written announces. */
  lemma HeadersReadBack(bytes: seq<byte>, rate: u32, m: u32, printed: seq<byte>)
    requires |bytes| >= 12 && bytes[12..] == FMT + Print(16, 4) + FmtBody(rate) + DataPart(m, printed)
    requires m <= |printed| && m % 2 == 0
    ensures |bytes| == 44 + |printed|
    ensures Walk(bytes, 12, Found(None, None))
              == Walk(bytes, 44 + m, Found(Some(Fmt(1, 1, rate, 16)), Some(printed[..m])))
  {
    var fmt, data := Chunk(FMT, FmtBody(rate)), Chunk(DATA, printed[..m]);
    FmtReadBack(rate);
    MeetHeaders(rate, data.body);
    assert PrintChunk(fmt) == FMT + Print(16, 4) + FmtBody(rate);
    ChunkReadBack(bytes, 12, fmt, DataPart(m, printed));
    var next := Next(bytes, 12);
    assert next == 36;
    WalkOne(bytes, 12, Found(None, None), fmt, next);
    DataHeaderReadBack(bytes, m, printed);
    WalkOne(bytes, 36, Found(Some(Fmt(1, 1, rate, 16)), None), data, 44 + m);
  }

  /** The layout of a written file; `m` is the data size it announces. */
  ghost predicate LaidOut(bytes: seq<byte>, rate: u32, m: u32, printed: seq<byte>) {
    && |bytes| >= 12 && bytes[0..4] == RIFF && bytes[8..12] == WAVE
    && bytes[12..] == FMT + Print(16, 4) + FmtBody(rate) + DataPart(m, printed)
    && m <= |printed| && m % 2 == 0
  }

  lemma RiffHeader(id: seq<byte>, size: seq<byte>, form: seq<byte>, rest: seq<byte>)
    requires |id| == |size| == |form| == 4
    ensures var all := (id + size + form) + rest; all[0..4] == id && all[8..12] == form && all[12..] == rest
  {
  }

  lemma WrittenIsLaidOut(rate: u32, samples: seq<i16>)
    ensures LaidOut(Written(rate, samples), rate, DataLen(samples), PrintSamples(samples))
  {
    DataLenIs(samples);
    RiffHeader(RIFF, Print((36 + DataLen(samples)) % 0x1_0000_0000, 4), WAVE,
               FMT + Print(16, 4) + FmtBody(rate) + DataPart(DataLen(samples), PrintSamples(samples)));
  }

  lemma FinishPcm16(rate: u32, data: seq<byte>, float: seq<byte> -> real)
    ensures Finish(Found(Some(Fmt(1, 1, rate, 16)), Some(data)), float) == Ok(WavData(rate, 1, Pcm(data, 2, 0x8000)))
  {
  }

  /** What is parsed: the announced data, then whatever follows it as further chunks. */
  lemma LaidOutParsed(bytes: seq<byte>, rate: u32, m: u32, printed: seq<byte>, float: seq<byte> -> real)
    requires LaidOut(bytes, rate, m, printed)
    ensures |bytes| == 44 + |printed|
    ensures Parsed(bytes, float)
              == Concluded(Walk(bytes, 44 + m, Found(Some(Fmt(1, 1, rate, 16)), Some(printed[..m]))), float)
  {
    HeadersReadBack(bytes, rate, m, printed);
  }

  lemma WholeLaidOut(bytes: seq<byte>, rate: u32, printed: seq<byte>, float: seq<byte> -> real)
    requires |printed| < 0x1_0000_0000 && LaidOut(bytes, rate, |printed|, printed)
    ensures Parsed(bytes, float) == Ok(WavData(rate, 1, Pcm(printed, 2, 0x8000)))
  {
    LaidOutParsed(bytes, rate, |printed|, printed, float);
    assert printed[..|printed|] == printed;
    FinishPcm16(rate, printed, float);
  }

  lemma ShortFilesReadBack(rate: u32, samples: seq<i16>, float: seq<byte> -> real)
    requires |samples| < 0x8000_0000
    ensures Parsed(Written(rate, samples), float) == Ok(Expected(rate, samples))
  {
    var bytes, m, printed := Written(rate, samples), DataLen(samples), PrintSamples(samples);
    WrittenIsLaidOut(rate, samples);
    DataLenIs(samples);
    assert LaidOut(bytes, rate, m, printed) && m == |printed|;
    WholeLaidOut(bytes, rate, printed, float);
    SamplesReadBack(rate, samples);
  }

  /** Further chunks found in what follows: their data is no longer than that, and a format has its name there. */
  lemma {:induction false} WalkOnwards(bytes: seq<byte>, pos: nat, found: Found)
    requires Walk(bytes, pos, found).Ok? && found.data.Some? && pos % 2 == 0
    ensures var last := Walk(bytes, pos, found).value;
            && last.data.Some?
            && (|last.data.value| <= |found.data.value| || |last.data.value| + pos + 8 <= |bytes|)
            && (last.fmt == found.fmt || exists p :: NameAt(bytes, pos, p))
    decreases |bytes| - pos
  {
    if pos + 8 <= |bytes| {
      var id, body, next := bytes[pos..pos + 4], Body(bytes, pos), Next(bytes, pos);
      WalkOne(bytes, pos, found, Chunk(id, body), next);
      var more := Meet(id, body, found).value;
      WalkOnwards(bytes, next, more);
      if id == FMT {
        assert id[0] == bytes[pos];
        assert NameAt(bytes, pos, pos);
      } else if p :| NameAt(bytes, next, p) {
        assert NameAt(bytes, pos, p);
      }
    }
  }

  /** An even place from `pos` on holds the letter a format chunk begins with. */
  ghost predicate NameAt(bytes: seq<byte>, pos: nat, p: nat) {
    pos <= p < |bytes| && p % 2 == 0 && bytes[p] == 0x66
  }

  /** The sample standing there is no multiple of 256. */
  lemma NamedSample(samples: seq<i16>, printed: seq<byte>, p: nat)
    requires printed == PrintSamples(samples) && p % 2 == 0 && p < |printed| && printed[p] == 0x66
    ensures samples[p / 2] % 256 == 0x66
  {
    SampleBytes(samples, p / 2);
    assert printed[p] == Group(printed, 2, p / 2)[0] == PrintI16(samples[p / 2])[0];
  }

  lemma LaidOutLength(bytes: seq<byte>, rate: u32, m: u32, printed: seq<byte>)
    requires LaidOut(bytes, rate, m, printed)
    ensures |bytes| == 44 + |printed| && bytes[44..] == printed
  {
    FmtReadBack(rate);
    BehindHeaders(bytes, FMT + Print(16, 4) + FmtBody(rate), DATA + Print(m, 4), printed);
  }

  lemma BehindHeaders(bytes: seq<byte>, fmt: seq<byte>, data: seq<byte>, printed: seq<byte>)
    requires |fmt| == 24 && |data| == 8 && |bytes| >= 12 && bytes[12..] == fmt + (data + printed)
    ensures |bytes| == 44 + |printed| && bytes[44..] == printed
  {
    SliceOf(bytes, 12, 44, |bytes|);
    assert bytes[12..][32..] == printed;
  }

  /** From fewer bytes than written, only 8-bit samples can be as many … */
  lemma OnlyEightBitsSuffice(found: Found, float: seq<byte> -> real, rate: u32, samples: seq<i16>)
    requires found.data.Some? && |found.data.value| < 2 * |samples|
    requires Finish(found, float) == Ok(Expected(rate, samples))
    ensures found.fmt.value.bits == 8 && found.data.value != []
              && Pcm8(found.data.value) == Expected(rate, samples).samples
  {
    var fmt, data := found.fmt.value, found.data.value;
    DecodedLength(data, fmt.bits, fmt.format == 3, float);
    assert fmt.channels == 1;
    assert Decode(data, fmt.bits, fmt.format == 3, float) == Ok(Expected(rate, samples).samples);
    assert |Expected(rate, samples).samples| == |samples|;
  }

  lemma DecodedLength(data: seq<byte>, bits: int, isFloat: bool, float: seq<byte> -> real)
    requires Decode(data, bits, isFloat, float).Ok?
    ensures isFloat || bits != 8 ==> 2 * |Decode(data, bits, isFloat, float).value| <= |data|
    ensures !isFloat && bits == 8 ==> Decode(data, bits, isFloat, float).value == Pcm8(data)
  {
  }

  /** … and those are multiples of 256. */
  lemma EightBitsAreCoarse(data: seq<byte>, rate: u32, samples: seq<i16>, j: nat)
    requires j < |samples| && Pcm8(data) == Expected(rate, samples).samples
    ensures samples[j] % 256 == 0
  {
    var wide := Expected(rate, samples).samples;
    assert |data| == |Pcm8(data)| == |wide| == |samples|;
    assert Pcm8(data)[j] == wide[j];
    assert (256 * (data[j] as int - 128)) as real == samples[j] as real;
    assert samples[j] as int == 256 * (data[j] as int - 128);
  }

  /** Samples the size field cannot count do not come back. */
  lemma LongFilesDoNot(rate: u32, samples: seq<i16>, float: seq<byte> -> real)
    requires |samples| >= 0x8000_0000
    ensures Parsed(Written(rate, samples), float) != Ok(Expected(rate, samples))
  {
    DataLenIs(samples);
    WrittenIsLaidOut(rate, samples);
    OverlongDoesNot(Written(rate, samples), rate, samples, DataLen(samples), PrintSamples(samples), float);
  }

  lemma OverlongDoesNot(bytes: seq<byte>, rate: u32, samples: seq<i16>, m: u32, printed: seq<byte>,
        float: seq<byte> -> real)
    requires LaidOut(bytes, rate, m, printed) && printed == PrintSamples(samples) && m < |printed|
    ensures Parsed(bytes, float) != Ok(Expected(rate, samples))
  {
    LaidOutParsed(bytes, rate, m, printed, float);
    LaidOutLength(bytes, rate, m, printed);
    OverlongWalk(bytes, rate, samples, printed, 44 + m, printed[..m], float);
  }

  lemma OverlongWalk(bytes: seq<byte>, rate: u32, samples: seq<i16>, printed: seq<byte>, pos: nat, data: seq<byte>,
        float: seq<byte> -> real)
    requires pos >= 44 && pos % 2 == 0 && |bytes| == 44 + |printed| && bytes[44..] == printed == PrintSamples(samples)
    requires |data| < |printed|
    ensures Concluded(Walk(bytes, pos, Found(Some(Fmt(1, 1, rate, 16)), Some(data))), float)
            != Ok(Expected(rate, samples))
  {
    var start := Found(Some(Fmt(1, 1, rate, 16)), Some(data));
    var walked := Walk(bytes, pos, start);
    if walked.Ok? {
      WalkOnwards(bytes, pos, start);
      LaterFindsDiffer(bytes, rate, samples, printed, pos, walked.value, float);
    }
  }

  lemma LaterFindsDiffer(bytes: seq<byte>, rate: u32, samples: seq<i16>, printed: seq<byte>, pos: nat, last: Found,
        float: seq<byte> -> real)
    requires pos >= 44 && |bytes| >= 44 && bytes[44..] == printed == PrintSamples(samples)
    requires last.data.Some? && |last.data.value| < |printed|
    requires last.fmt == Some(Fmt(1, 1, rate, 16)) || exists p :: NameAt(bytes, pos, p)
    ensures Finish(last, float) != Ok(Expected(rate, samples))
  {
    if Finish(last, float) == Ok(Expected(rate, samples)) {
      OnlyEightBitsSuffice(last, float, rate, samples);
      var p: nat :| NameAt(bytes, pos, p);
      PlaceInSamples(bytes, printed, p);
      NamedSample(samples, printed, p - 44);
      EightBitsAreCoarse(last.data.value, rate, samples, (p - 44) / 2);
      assert false;
    }
  }

  lemma PlaceInSamples(bytes: seq<byte>, printed: seq<byte>, p: nat)
    requires |bytes| >= 44 && bytes[44..] == printed && 44 <= p < |bytes|
    ensures p - 44 < |printed| && printed[p - 44] == bytes[p]
  {
  }

  ghost predicate ReadsBack(output: Option<seq<byte>>, expected: WavData, float: seq<byte> -> real) {
    output.Some? && Parsed(output.value, float) == Ok(expected)
  }

  /**
   Parsing what was written gives back the samples exactly when every 32-bit sum the build checks
   could be formed, and the size counted.
   */
  lemma RoundTripIff(rate: u32, samples: seq<i16>, checked: bool, float: seq<byte> -> real)
    ensures ReadsBack(Output(rate, samples, checked), Expected(rate, samples), float) <==>
            |samples| < 0x8000_0000 && (checked ==> rate < 0x8000_0000 && 36 + 2 * |samples| < 0x1_0000_0000)
  {
    DataLenIs(samples);
    if |samples| < 0x8000_0000 {
      ShortFilesReadBack(rate, samples, float);
    } else {
      LongFilesDoNot(rate, samples, float);
    }
  }
}
