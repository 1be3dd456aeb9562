/** What a parsed file's samples are in terms of its bytes, and which files are refused. */
module WavSamples {
  import opened Types
  import opened Wav

  // ------------------------------------------------------------ names and words

  predicate Spells(b: seq<byte>, name: string) {
    |b| == |name| && forall i | 0 <= i < |b| :: b[i] as int == name[i] as int
  }

  lemma SpelledIff(b: seq<byte>)
    ensures b == RIFF <==> Spells(b, "RIFF")
    ensures b == WAVE <==> Spells(b, "WAVE")
    ensures b == FMT <==> Spells(b, "fmt ")
    ensures b == DATA <==> Spells(b, "data")
  {
  }

  /** Least significant byte first. */
  lemma ReadIs(b: seq<byte>)
    ensures |b| == 2 ==> Read(b) == b[0] as int + 0x100 * b[1] as int
    ensures |b| == 3 ==> Read(b) == b[0] as int + 0x100 * b[1] as int + 0x1_0000 * b[2] as int
    ensures |b| == 4 ==>
              Read(b) == b[0] as int + 0x100 * b[1] as int + 0x1_0000 * b[2] as int + 0x100_0000 * b[3] as int
  {
    if 2 <= |b| <= 4 {
      assert Read(b) == b[0] as int + 0x100 * (b[1] as int + 0x100 * Read(b[2..])) by {
        assert b[1..][1..] == b[2..];
      }
      if |b| > 2 { ReadIsLast(b[2..]); }
    }
  }

  lemma ReadIsLast(b: seq<byte>)
    requires 1 <= |b| <= 2
    ensures Read(b) == if |b| == 1 then b[0] as int else b[0] as int + 0x100 * b[1] as int
  {
    if |b| == 2 { assert b[1..][0] == b[1] && b[1..][1..] == []; }
  }

  // ------------------------------------------------------------------- samples

  /** Unsigned, centred on 128. */
  lemma Pcm8At(data: seq<byte>, float: seq<byte> -> real, i: nat)
    requires i < |data|
    ensures var s := Decode(data, 8, false, float);
            s.Ok? && |s.value| == |data| && s.value[i] == (data[i] as int - 128) as real / 128.0
  {
  }

  /** Two's complement in two bytes, over 2^15; an odd byte at the end gives nothing. */
  lemma Pcm16At(data: seq<byte>, float: seq<byte> -> real, i: nat)
    requires i < |data| / 2
    ensures var s := Decode(data, 16, false, float);
            && s.Ok? && |s.value| == |data| / 2
            && var n := data[2 * i] as int + 0x100 * data[2 * i + 1] as int;
               s.value[i] == (if n < 0x8000 then n else n - 0x1_0000) as real / 32768.0
  {
    ReadIs(Group(data, 2, i));
  }

  /** In three bytes, over 2^23. */
  lemma Pcm24At(data: seq<byte>, float: seq<byte> -> real, i: nat)
    requires i < |data| / 3
    ensures var s := Decode(data, 24, false, float);
            && s.Ok? && |s.value| == |data| / 3
            && var n := data[3 * i] as int + 0x100 * data[3 * i + 1] as int + 0x1_0000 * data[3 * i + 2] as int;
               s.value[i] == (if n < 0x80_0000 then n else n - 0x100_0000) as real / 8388608.0
  {
    ReadIs(Group(data, 3, i));
  }

  /** In four bytes, over 2^31. */
  lemma Pcm32At(data: seq<byte>, float: seq<byte> -> real, i: nat)
    requires i < |data| / 4
    ensures var s := Decode(data, 32, false, float);
            && s.Ok? && |s.value| == |data| / 4
            && var b := data[4 * i..4 * i + 4];
               var n := b[0] as int + 0x100 * b[1] as int + 0x1_0000 * b[2] as int + 0x100_0000 * b[3] as int;
               s.value[i] == (if n < 0x8000_0000 then n else n - 0x1_0000_0000) as real / 2147483648.0
  {
    ReadIs(Group(data, 4, i));
  }

  lemma FloatAt(data: seq<byte>, float: seq<byte> -> real, i: nat)
    requires i < |data| / 4
    ensures var s := Decode(data, 32, true, float);
            s.Ok? && |s.value| == |data| / 4 && s.value[i] == float(data[4 * i..4 * i + 4])
  {
    assert Float32(data, float)[i] == float(Group(data, 4, i));
  }

  // -------------------------------------------------------------------- frames

  lemma {:induction false} TotalIs(a: seq<real>, b: seq<real>, x: real)
    ensures Total([x]) == x && Total(a + b) == Total(a) + Total(b)
  {
    assert Total([x]) == x + Total([]);
    if a == [] {
      assert a + b == b;
    } else {
      assert (a + b)[1..] == a[1..] + b;
      TotalIs(a[1..], b, x);
    }
  }

  /** One sample for each whole frame, the mean of its channels. */
  ghost predicate FrameMeans(decoded: seq<real>, channels: nat, mono: seq<real>)
    requires channels >= 1
  {
    && channels * |mono| <= |decoded| < channels * |mono| + channels
    && forall i: nat | i < |mono| ::
        0 <= channels * i && channels * i + channels <= |decoded|
        && mono[i] == Total(decoded[channels * i..channels * i + channels]) / channels as real
  }

  lemma MeansOfFrames(decoded: seq<real>, channels: nat)
    requires channels >= 1
    ensures FrameMeans(decoded, channels, Downmix(decoded, channels))
  {
    if channels == 1 {
      forall i: nat | i < |decoded|
        ensures decoded[i] == Total(decoded[i..i + 1]) / 1.0
      {
        assert decoded[i..i + 1] == [decoded[i]];
        TotalIs([], [], decoded[i]);
      }
    } else {
      AveragesAt(decoded, channels, 0);
      forall i: nat | i < |Averages(decoded, channels)|
        ensures 0 <= channels * i && channels * i + channels <= |decoded|
        ensures Averages(decoded, channels)[i]
                == Total(decoded[channels * i..channels * i + channels]) / channels as real
      {
        AveragesAt(decoded, channels, i);
      }
    }
  }

  /** Formats the reader takes, by tag, channels and depth. */
  predicate Accepted(fmt: Fmt) {
    && fmt.channels > 0
    && if fmt.format == 3 then fmt.bits == 32
       else (fmt.format == 1 || fmt.format == 0xFFFE)
            && (fmt.bits == 8 || fmt.bits == 16 || fmt.bits == 24 || fmt.bits == 32)
  }

  lemma FinishFrames(found: Found, float: seq<byte> -> real)
    requires Finish(found, float).Ok?
    ensures found.fmt.Some? && found.data.Some? && Accepted(found.fmt.value)
    ensures var fmt := found.fmt.value;
            var decoded := Decode(found.data.value, fmt.bits, fmt.format == 3, float);
            decoded.Ok?
                && Finish(found, float) == Ok(WavData(fmt.rate, fmt.channels, Downmix(decoded.value, fmt.channels)))
  {
  }

  /** A parsed file has the rate and channels of its format, and its samples are the means of its frames. */
  lemma ParsedFrames(bytes: seq<byte>, float: seq<byte> -> real, found: Found)
    requires |bytes| >= 12 && Walk(bytes, 12, Found(None, None)) == Ok(found) && Parsed(bytes, float).Ok?
    ensures found.fmt.Some? && found.data.Some? && Accepted(found.fmt.value)
    ensures var fmt, wav := found.fmt.value, Parsed(bytes, float).value;
            var decoded := Decode(found.data.value, fmt.bits, fmt.format == 3, float);
            && wav.sampleRate == fmt.rate && wav.channels == fmt.channels
            && decoded.Ok? && FrameMeans(decoded.value, fmt.channels, wav.samples)
  {
    assert Parsed(bytes, float) == Concluded(Ok(found), float) == Finish(found, float);
    FinishFrames(found, float);
    var fmt := found.fmt.value;
    MeansOfFrames(Decode(found.data.value, fmt.bits, fmt.format == 3, float).value, fmt.channels);
  }

  // ------------------------------------------------------- formats and refusals

  function FmtBytes(fmt: Fmt, byteRate: u32, align: nat, extra: seq<byte>): seq<byte> {
    Print(fmt.format, 2) + Print(fmt.channels, 2) + Print(fmt.rate, 4) + Print(byteRate, 4) + Print(align, 2)
    + Print(fmt.bits, 2) + extra
  }

  /** The four fields are read from where the format puts them, whatever comes between and after. */
  lemma FieldsReadBack(fmt: Fmt, byteRate: u32, align: nat, extra: seq<byte>)
    requires fmt.format < 0x1_0000 && fmt.channels < 0x1_0000 && fmt.rate < 0x1_0000_0000 && fmt.bits < 0x1_0000
    ensures |FmtBytes(fmt, byteRate, align, extra)| >= 16 && ParseFmt(FmtBytes(fmt, byteRate, align, extra)) == fmt
  {
    var all := FmtBytes(fmt, byteRate, align, extra);
    U16ReadBack(fmt.format);
    U16ReadBack(fmt.channels);
    U32ReadBack(fmt.rate);
    U16ReadBack(fmt.bits);
    assert all[0..2] == Print(fmt.format, 2) && all[2..4] == Print(fmt.channels, 2);
    assert all[4..8] == Print(fmt.rate, 4) && all[14..16] == Print(fmt.bits, 2);
  }

  lemma {:induction false} WalkRefuses(bytes: seq<byte>, pos: nat, found: Found)
    ensures Walk(bytes, pos, found).Err? ==> Walk(bytes, pos, found).error == FmtTooSmall
    decreases |bytes| - pos
  {
    if pos + 8 <= |bytes| {
      var met := Meet(bytes[pos..pos + 4], Body(bytes, pos), found);
      if met.Ok? { WalkRefuses(bytes, Next(bytes, pos), met.value); }
    }
  }

  /** Refused as no RIFF file exactly when the header does not say so. */
  lemma NotRiffIff(bytes: seq<byte>, float: seq<byte> -> real)
    ensures Parsed(bytes, float) == Err(NotRiff)
            <==> !(|bytes| >= 12 && Spells(bytes[..4], "RIFF") && Spells(bytes[8..12], "WAVE"))
  {
    if |bytes| >= 12 {
      SpelledIff(bytes[0..4]);
      SpelledIff(bytes[8..12]);
      WalkRefuses(bytes, 12, Found(None, None));
      FinishIsNotRiff(Walk(bytes, 12, Found(None, None)), float);
    }
  }

  lemma FinishIsNotRiff(walked: Result<Found>, float: seq<byte> -> real)
    requires walked.Err? ==> walked.error == FmtTooSmall
    ensures Concluded(walked, float) != Err(NotRiff)
  {
    if walked.Ok? && Finish(walked.value, float).Err? { FinishRefuses(walked.value, float); }
  }

  /** The format that counts: of the last chunk of that name. */
  function LastFmt(chunks: seq<Chunk>): Option<Fmt> {
    if LastBody(chunks, FMT).Some? && |LastBody(chunks, FMT).value| >= 16
    then Some(ParseFmt(LastBody(chunks, FMT).value)) else None
  }

  /** A list of chunks is taken exactly when every format can be read, both are there, and the last is accepted. */
  lemma TakenIff(size: u32, chunks: seq<Chunk>, float: seq<byte> -> real)
    requires AllWellFormed(chunks)
    ensures Parsed(File(size, chunks), float).Ok?
            <==> FmtsReadable(chunks) && LastFmt(chunks).Some? && LastBody(chunks, DATA).Some?
                 && Accepted(LastFmt(chunks).value)
  {
    ParsedGathers(size, chunks, float);
    LastOnesWin(chunks);
  }

  ghost predicate FirstFault(error: Error, fmt: Option<Fmt>, data: Option<seq<byte>>) {
    if fmt.None? then error == MissingFmt
    else if data.None? then error == MissingData
    else if fmt.value.channels == 0 then error == ZeroChannels
    else if !(fmt.value.format in {1, 3, 0xFFFE}) then error == UnsupportedFormat(fmt.value.format)
    else error == UnsupportedDepth(fmt.value.bits) && !Accepted(fmt.value)
  }

  lemma FinishRefuses(found: Found, float: seq<byte> -> real)
    requires Finish(found, float).Err?
    ensures FirstFault(Finish(found, float).error, found.fmt, found.data)
  {
  }

  lemma {:induction false} GatheredRefuses(chunks: seq<Chunk>, found: Found)
    ensures Gathered(chunks, found).Err? ==> Gathered(chunks, found).error == FmtTooSmall
  {
    if chunks != [] {
      var met := Meet(chunks[0].id, chunks[0].body, found);
      if met.Ok? { GatheredRefuses(chunks[1..], met.value); }
    }
  }

  /** Otherwise the first fault, in this order, is reported. */
  lemma RefusedBecause(size: u32, chunks: seq<Chunk>, float: seq<byte> -> real)
    requires AllWellFormed(chunks) && Parsed(File(size, chunks), float).Err?
    ensures var error := Parsed(File(size, chunks), float).error;
            if FmtsReadable(chunks) then FirstFault(error, LastFmt(chunks), LastBody(chunks, DATA))
            else error == FmtTooSmall
  {
    ParsedGathers(size, chunks, float);
    LastOnesWin(chunks);
    var gathered := Gathered(chunks, Found(None, None));
    if gathered.Ok? { FinishRefuses(gathered.value, float); } else { GatheredRefuses(chunks, Found(None, None)); }
  }

  /** A last chunk announcing more than there is gets what there is. */
  lemma CutShort(bytes: seq<byte>, pos: nat, id: seq<byte>, size: u32, rest: seq<byte>, found: Found)
    requires |id| == 4 && pos <= |bytes| && bytes[pos..] == id + Print(size, 4) + rest && |rest| <= size
    ensures Walk(bytes, pos, found) == Meet(id, rest, found)
  {
    var tail := bytes[pos..];
    assert |bytes| == pos + 8 + |rest|;
    SliceOf(bytes, pos, pos, pos + 4);
    SliceOf(bytes, pos, pos + 8, |bytes|);
    assert tail[0..4] == id && tail[8..|tail|] == rest;
    SizeReadBack(bytes, pos + 4, id, size, rest);
    assert Body(bytes, pos) == rest && Next(bytes, pos) >= |bytes|;
    WalkOne(bytes, pos, found, Chunk(id, rest), Next(bytes, pos));
  }

  /** A 16-bit stereo file: each sample is the mean of the left and the right one, read from its four bytes. */
  lemma Stereo16(size: u32, rate: u32, byteRate: u32, align: nat, data: seq<byte>, float: seq<byte> -> real, i: nat)
    requires |data| < 0x1_0000_0000 && i < |data| / 4
    ensures var fmt := FmtBytes(Fmt(1, 2, rate, 16), byteRate, align, []);
            var r := Parsed(File(size, [Chunk(FMT, fmt), Chunk(DATA, data)]), float);
            && r.Ok? && r.value.sampleRate == rate && r.value.channels == 2 && |r.value.samples| == |data| / 4
            && var left, right := Decode(data, 16, false, float).value[2 * i],
                                  Decode(data, 16, false, float).value[2 * i + 1];
               r.value.samples[i] == (left + right) / 2.0
  {
    var fmt := Fmt(1, 2, rate, 16);
    var chunks := [Chunk(FMT, FmtBytes(fmt, byteRate, align, [])), Chunk(DATA, data)];
    FieldsReadBack(fmt, byteRate, align, []);
    TwoChunks(chunks, fmt, data);
    ParsedGathers(size, chunks, float);
    FinishFrames(Found(Some(fmt), Some(data)), float);
    StereoMean(Decode(data, 16, false, float).value, i);
  }

  lemma StereoMean(decoded: seq<real>, i: nat)
    requires i < |decoded| / 2
    ensures |Downmix(decoded, 2)| == |decoded| / 2
    ensures Downmix(decoded, 2)[i] == (decoded[2 * i] + decoded[2 * i + 1]) / 2.0
  {
    MeansOfFrames(decoded, 2);
    var left, right := decoded[2 * i], decoded[2 * i + 1];
    TotalIs([left], [right], left);
    TotalIs([], [], right);
    assert decoded[2 * i..2 * i + 2] == [left] + [right];
  }

  lemma TwoChunks(chunks: seq<Chunk>, fmt: Fmt, data: seq<byte>)
    requires |chunks| == 2 && chunks[0].id == FMT && chunks[1] == Chunk(DATA, data)
    requires |chunks[0].body| >= 16 && ParseFmt(chunks[0].body) == fmt
    ensures Gathered(chunks, Found(None, None)) == Ok(Found(Some(fmt), Some(data)))
  {
    assert FMT[0] != DATA[0];
    var met := Found(Some(fmt), None);
    assert Gathered(chunks[2..], Found(Some(fmt), Some(data))) == Ok(Found(Some(fmt), Some(data)));
    assert Gathered(chunks[1..], met) == Ok(Found(Some(fmt), Some(data))) by {
      assert chunks[1..][1..] == chunks[2..];
    }
  }

  // -------------------------------------------------------------------- writer

  /** The header announces the size of all that follows it, and the bytes of a second of sound. */
  lemma WrittenSizes(rate: u32, samples: seq<i16>, size: u32, byteRate: u32)
    requires size == 36 + 2 * |samples| && byteRate == 2 * rate
    ensures var bytes := Written(rate, samples);
            |bytes| == 8 + size && bytes[4..8] == Print(size, 4) && bytes[28..32] == Print(byteRate, 4)
  {
    FmtReadBack(rate);
    RateAt(rate, byteRate);
    DataLenIs(samples);
    WrittenIs(rate, samples, size);
    PartsAt(Written(rate, samples), RIFF, Print(size, 4), WAVE, FMT + Print(16, 4), FmtBody(rate),
            DataPart(DataLen(samples), PrintSamples(samples)));
  }

  lemma WrittenIs(rate: u32, samples: seq<i16>, size: u32)
    requires size == 36 + 2 * |samples|
    ensures Written(rate, samples)
            == (RIFF + Print(size, 4) + WAVE)
               + (FMT + Print(16, 4) + FmtBody(rate) + DataPart(DataLen(samples), PrintSamples(samples)))
  {
    SizeIs(samples, size);
  }

  lemma SizeIs(samples: seq<i16>, size: u32)
    requires size == 36 + 2 * |samples|
    ensures (36 + DataLen(samples)) % 0x1_0000_0000 == size
  {
    DataLenIs(samples);
  }

  lemma PartsAt(bytes: seq<byte>, id: seq<byte>, size: seq<byte>, form: seq<byte>, head: seq<byte>, body: seq<byte>,
        rest: seq<byte>)
    requires |id| == |size| == |form| == 4 && |head| == 8 && |body| == 16
    requires bytes == (id + size + form) + (head + body + rest)
    ensures |bytes| == 36 + |rest| && bytes[4..8] == size && bytes[28..32] == body[8..12]
  {
  }

  lemma RateAt(rate: u32, byteRate: u32)
    requires byteRate == 2 * rate
    ensures FmtBody(rate)[8..12] == Print(byteRate, 4)
  {
  }
}
