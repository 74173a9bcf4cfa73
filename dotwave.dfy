/** The WAVE codec of DotWave: the header validator IsWave, the sample
    scaling between n-byte PCM values and the canonical UInt32 amplitudes, and
    the readers and writers of the canonical 44-byte RIFF/WAVE layout (a "fmt "
    chunk of 16 bytes for PCM, then a "data" chunk, samples frame by frame
    and, inside a frame, channel by channel). */
module DotWave {
  import opened Bytes
  import opened Grid
  import opened WaveInfo

  datatype Option<T> = None | Some(value: T)

  // ---------------------------------------------------------------------
  // Header validation
  // ---------------------------------------------------------------------

  const MsgShort := "File size less than 44 bytes. It can't be."
  const MsgNoRiff := "File is not have \"RIFF\" chunkID."
  const MsgNoWave := "File is not have \"WAVE\" format."
  const MsgNoFmt := "File is not have \"fmt \" subchunk1Id."
  const MsgFmtSize := "File have not PCM algorithm in subchunk1Size."
  const MsgAudioFormat := "File have not PCM algorithm in audioFormat."
  const MsgNoData := "File have not \"data\" in subchunk2Id."

  /** What IsWave accepts: a 44-byte header with the RIFF, WAVE, "fmt " and
      "data" tags and a 16-byte format chunk. */
  predicate HeaderOk(bytes: seq<Byte>)
  {
    && |bytes| >= 44
    && Le32(bytes, 0) == RiffId
    && Le32(bytes, 8) == WaveId
    && Le32(bytes, 12) == FmtId
    && Le32(bytes, 16) == PcmFmtSize
    && Le32(bytes, 36) == DataId
  }

  /** The checks on a header, in the order they are made, each with the
      message reported when it fails. */
  function Checks(bytes: seq<Byte>): (cs: seq<(bool, string)>)
    requires |bytes| >= 44
    ensures |cs| == 5
  {
    [ (Le32(bytes, 0) == RiffId, MsgNoRiff),
      (Le32(bytes, 8) == WaveId, MsgNoWave),
      (Le32(bytes, 12) == FmtId, MsgNoFmt),
      (Le32(bytes, 16) == PcmFmtSize, MsgFmtSize),
      (Le32(bytes, 36) == DataId, MsgNoData) ]
  }

  /** The message of the first failing check, if any. */
  function FirstFailure(cs: seq<(bool, string)>): (r: Option<string>)
    ensures r.None? <==> forall k :: 0 <= k < |cs| ==> cs[k].0
  {
    if cs == [] then None
    else if !cs[0].0 then Some(cs[0].1)
    else FirstFailure(cs[1..])
  }

  /** IsWave: None for an acceptable header, otherwise the message of the
      first failing check. The audio-format check re-tests the format chunk
      size, so the audio format at offset 20 is never looked at. */
  function IsWave(bytes: seq<Byte>): (r: Option<string>)
    ensures r.None? <==> HeaderOk(bytes)
    ensures r != Some(MsgAudioFormat)
  {
    if |bytes| < 44 then Some(MsgShort)
    else if Le32(bytes, 0) != RiffId then Some(MsgNoRiff)
    else if Le32(bytes, 8) != WaveId then Some(MsgNoWave)
    else if Le32(bytes, 12) != FmtId then Some(MsgNoFmt)
    else if Le32(bytes, 16) != PcmFmtSize then Some(MsgFmtSize)
    else if Le32(bytes, 16) != PcmFmtSize then Some(MsgAudioFormat)
    else if Le32(bytes, 36) != DataId then Some(MsgNoData)
    else None
  }

  /** IsWave reports the first failing check, in the order of Checks. */
  lemma IsWaveFirstFailure(bytes: seq<Byte>)
    ensures IsWave(bytes) == if |bytes| < 44 then Some(MsgShort) else FirstFailure(Checks(bytes))
  {
    if |bytes| >= 44 {
      var cs := Checks(bytes);
      assert FirstFailure(cs[4..]) == if !cs[4].0 then Some(cs[4].1) else None by {
        assert cs[4..][1..] == [];
      }
      forall k | 0 <= k < 4
        ensures FirstFailure(cs[k..]) == if !cs[k].0 then Some(cs[k].1) else FirstFailure(cs[k + 1..])
      {
        assert cs[k..][1..] == cs[k + 1..];
      }
      assert cs[0..] == cs;
    }
  }

  /** Two byte strings that differ at most in the audio-format field get the
      same verdict. */
  lemma IsWaveIgnoresAudioFormat(x: seq<Byte>, y: seq<Byte>)
    requires |x| == |y|
    requires forall k :: 0 <= k < |x| && k != 20 && k != 21 ==> x[k] == y[k]
    ensures IsWave(x) == IsWave(y)
  {
    if |x| >= 44 {
      assert Le32(x, 0) == Le32(y, 0) && Le32(x, 8) == Le32(y, 8) && Le32(x, 12) == Le32(y, 12);
      assert Le32(x, 16) == Le32(y, 16) && Le32(x, 36) == Le32(y, 36);
    }
  }

  /** The validator with the audio-format check it evidently meant to make:
      the format at offset 20 must be PCM (1). */
  function IsPcmWave(bytes: seq<Byte>): (r: Option<string>)
    ensures r.None? <==> HeaderOk(bytes) && Le16(bytes, 20) == PcmFormat
    ensures HeaderOk(bytes) && Le16(bytes, 20) != PcmFormat ==> r == Some(MsgAudioFormat)
    ensures |bytes| < 44 || Le16(bytes, 20) == PcmFormat ==> r == IsWave(bytes)
  {
    if |bytes| < 44 then Some(MsgShort)
    else if Le32(bytes, 0) != RiffId then Some(MsgNoRiff)
    else if Le32(bytes, 8) != WaveId then Some(MsgNoWave)
    else if Le32(bytes, 12) != FmtId then Some(MsgNoFmt)
    else if Le32(bytes, 16) != PcmFmtSize then Some(MsgFmtSize)
    else if Le16(bytes, 20) != PcmFormat then Some(MsgAudioFormat)
    else if Le32(bytes, 36) != DataId then Some(MsgNoData)
    else None
  }

  // ---------------------------------------------------------------------
  // The 44-byte header
  // ---------------------------------------------------------------------

  /** The header SetWaves writes, as the values BitConverter reads back from
      each field's offset. */
  ghost predicate HeaderHolds(s: seq<Byte>, audioFormat: U16, d: Derived, rate: U32, bps: U16)
  {
    && |s| >= 44
    && Le32(s, 0) == RiffId && Le32(s, 4) == d.chunkSize && Le32(s, 8) == WaveId
    && Le32(s, 12) == FmtId && Le32(s, 16) == PcmFmtSize && Le16(s, 20) == audioFormat
    && Le16(s, 22) == d.numChannels && Le32(s, 24) == rate && Le32(s, 28) == d.byteRate
    && Le16(s, 32) == d.blockAlign && Le16(s, 34) == bps && Le32(s, 36) == DataId
    && Le32(s, 40) == d.subchunk2Size
  }

  /** Any header laid out with a non-PCM audio format passes IsWave and is
      rejected by the PCM check. */
  lemma AudioFormatUnchecked(s: seq<Byte>, audioFormat: U16, d: Derived, rate: U32, bps: U16)
    requires HeaderHolds(s, audioFormat, d, rate, bps) && audioFormat != PcmFormat
    ensures IsWave(s) == None && IsPcmWave(s) == Some(MsgAudioFormat)
  {
  }

  // ---------------------------------------------------------------------
  // Sample scaling
  // ---------------------------------------------------------------------

  /** How an amplitude is brought down to an n-byte value: SetWaves truncates;
      Nearest rounds to the nearest value and saturates at the largest one. */
  datatype Scaling = Truncate | Nearest

  lemma Pow256Values()
    ensures Pow256(1) == 0x100 && Pow256(2) == 0x1_0000 && Pow256(3) == 0x100_0000
    ensures Pow256(4) == Two32
  {
    assert Pow256(1) == 256 * Pow256(0);
    assert Pow256(2) == 256 * Pow256(1);
    assert Pow256(3) == 256 * Pow256(2);
  }

  /** GetWaves' widening of an n-byte value to the UInt32 range,
      raw / 256^n * UInt32.MaxValue truncated: 0 stays 0, and any other raw
      lands one below raw * 256^(4-n). */
  function Upscale(raw: nat, n: nat): (v: U32)
    requires 1 <= n <= 4 && raw < Pow256(n)
    ensures v == if raw == 0 then 0 else raw * Pow256(4 - n) - 1
  {
    UpscaleForm(raw, n);
    raw * U32Max / Pow256(n)
  }

  lemma UpscaleForm(raw: nat, n: nat)
    requires 1 <= n <= 4 && raw < Pow256(n)
    ensures raw * U32Max / Pow256(n) == if raw == 0 then 0 else raw * Pow256(4 - n) - 1
  {
    Pow256Values();
    var p, k := Pow256(n), Pow256(4 - n);
    assert p * k == Two32 by {
      assert Pow256(0) == 1;
    }
    if raw > 0 {
      assert raw * k >= 1;
      assert raw * U32Max == raw * (p * k) - raw;
      assert raw * U32Max == p * (raw * k - 1) + (p - raw);
      DivModUnique(raw * U32Max, p, raw * k - 1, p - raw);
    }
  }

  /** SetWaves' narrowing of an amplitude to n bytes,
      v / UInt32.MaxValue * 256^n truncated. */
  function Downscale(v: U32, n: nat): nat
  {
    v * Pow256(n) / U32Max
  }

  /** The narrowing rounded to the nearest n-byte value and kept below 256^n. */
  function Round(v: U32, n: nat): (r: nat)
    ensures r < Pow256(n)
  {
    var q := (2 * v * Pow256(n) + U32Max) / (2 * U32Max);
    if q < Pow256(n) then q else Pow256(n) - 1
  }

  function Level(v: U32, n: nat, s: Scaling): nat
  {
    match s
    case Truncate => Downscale(v, n)
    case Nearest => Round(v, n)
  }

  /** The n = bps / 8 bytes SetWaves writes for one amplitude: the low bytes of
      the (UInt32) narrowed value, or, at 8 bits and below, its lowest byte
      toggled by Bias. */
  function EncodeSample(v: U32, bps: U16, s: Scaling): (e: seq<Byte>)
    requires bps / 8 <= 4
    ensures |e| == bps / 8
  {
    var val := LeBytes(Level(v, bps / 8, s) % Two32, 4);
    if bps > 8 then val[..bps / 8] else seq(bps / 8, _ => Bias(val[0]))
  }

  /** The amplitude GetWaves reads from the n = bps / 8 bytes of one sample:
      at 8 bits the byte is first toggled by Bias. */
  function DecodeSample(part: seq<Byte>, bps: U16): U32
    requires 1 <= |part| <= 4 && |part| == bps / 8
  {
    Upscale(LeValue(Toggled(part, bps)), |part|)
  }

  lemma {:induction false} LeBytesPrefix(v: nat, m: nat, n: nat)
    requires n <= m
    ensures LeBytes(v, m)[..n] == LeBytes(v, n)
  {
    if n > 0 {
      LeBytesPrefix(v / 256, m - 1, n - 1);
      assert LeBytes(v, m)[..n] == [v % 256] + LeBytes(v / 256, m - 1)[..n - 1];
    }
  }

  /** The bytes of an encoded sample: the n low bytes of the narrowed value,
      or its lowest byte toggled at 8 bits. */
  lemma EncodedBytes(v: U32, bps: U16, s: Scaling)
    requires 1 <= bps / 8 <= 4
    ensures var lv := Level(v, bps / 8, s) % Two32;
      && (bps > 8 ==> EncodeSample(v, bps, s) == LeBytes(lv, bps / 8))
      && (bps <= 8 ==> EncodeSample(v, bps, s) == [Bias(lv % 256)])
  {
    var lv := Level(v, bps / 8, s) % Two32;
    LeBytesPrefix(lv, 4, bps / 8);
  }

  /** Truncation loses one step at 8 and 16 bits: re-narrowing a widened
      non-zero value gives the value below it. */
  lemma DownscaleAfterUpscale(raw: nat, n: nat)
    requires 1 <= n <= 2 && 1 <= raw < Pow256(n)
    ensures Downscale(Upscale(raw, n), n) == raw - 1
  {
    Pow256Values();
    var p, k := Pow256(n), Pow256(4 - n);
    var x := Upscale(raw, n);
    assert x * p == (raw - 1) * U32Max + (U32Max + raw - p) by {
      assert Pow256(0) == 1;
      if n == 1 {
        assert p == 0x100 && k == 0x100_0000;
      } else {
        assert p == 0x1_0000 && k == 0x1_0000;
      }
    }
    DivModUnique(x * p, U32Max, raw - 1, U32Max + raw - p);
  }

  /** Rounding to the nearest value undoes the widening exactly, up to 24 bits. */
  lemma RoundAfterUpscale(raw: nat, n: nat)
    requires 1 <= n <= 3 && raw < Pow256(n)
    ensures Round(Upscale(raw, n), n) == raw
  {
    Pow256Values();
    var p, k := Pow256(n), Pow256(4 - n);
    if raw > 0 {
      var x := Upscale(raw, n);
      assert 2 * x * p + U32Max == raw * (2 * U32Max) + (U32Max + 2 * raw - 2 * p) by {
        assert Pow256(0) == 1;
        if n == 1 {
          assert p == 0x100 && k == 0x100_0000;
        } else if n == 2 {
          assert p == 0x1_0000 && k == 0x1_0000;
        } else {
          assert p == 0x100_0000 && k == 0x100;
        }
      }
      DivModUnique(2 * x * p + U32Max, 2 * U32Max, raw, U32Max + 2 * raw - 2 * p);
    }
  }

  /** Writing back a sample that was read, rounding to the nearest value,
      gives back what was read; at 16 and 24 bits, and at 8 bits for stored
      bytes up to 253, it gives back the very bytes. */
  lemma RoundedWriteAfterRead(part: seq<Byte>, bps: U16)
    requires 1 <= |part| <= 3 && |part| == bps / 8
    ensures bps > 8 || part[0] <= 253 ==> EncodeSample(DecodeSample(part, bps), bps, Nearest) == part
    ensures DecodeSample(EncodeSample(DecodeSample(part, bps), bps, Nearest), bps) == DecodeSample(part, bps)
  {
    var n := |part|;
    var v := DecodeSample(part, bps);
    if bps > 8 {
      RoundedLevel(LeValue(part), n);
      EncodedBytes(v, bps, Nearest);
      LeBytesOfValue(part);
    } else {
      DecodeByte(part, bps);
      RoundedLevel(Bias(part[0]), 1);
      EncodedBytes(v, bps, Nearest);
      var e := EncodeSample(v, bps, Nearest);
      assert e == [Bias(Bias(part[0]))];
      BiasRoundTrip(part[0]);
      BiasRoundTrip(Bias(part[0]));
      DecodeByte(e, bps);
    }
  }

  /** Rounding gives back the stored value a sample was widened from. */
  lemma RoundedLevel(raw: nat, n: nat)
    requires 1 <= n <= 3 && raw < Pow256(n)
    ensures Level(Upscale(raw, n), n, Nearest) % Two32 == raw
  {
    RoundAfterUpscale(raw, n);
    Pow256Values();
    ModSmall(raw, Two32);
  }

  /** An 8-bit sample reads as its toggled byte, widened. */
  lemma DecodeByte(part: seq<Byte>, bps: U16)
    requires |part| == 1 && bps / 8 == 1 && bps <= 8
    ensures DecodeSample(part, bps) == Upscale(Bias(part[0]), 1)
  {
    var t := [Bias(part[0])] + part[1..];
    assert t == [Bias(part[0])];
    assert LeValue(t) == Bias(part[0]) by {
      assert t[1..] == [];
    }
  }

  /** Writing back a 16-bit sample that was read, truncating as SetWaves
      does, lowers every non-zero stored value by one: the bytes change. */
  lemma TruncatedWriteAfterRead(part: seq<Byte>, bps: U16)
    requires |part| == 2 && bps / 8 == 2 && LeValue(part) >= 1
    ensures EncodeSample(DecodeSample(part, bps), bps, Truncate) == LeBytes(LeValue(part) - 1, |part|)
    ensures EncodeSample(DecodeSample(part, bps), bps, Truncate) != part
  {
    var raw := LeValue(part);
    var v := DecodeSample(part, bps);
    var e := EncodeSample(v, bps, Truncate);
    TruncatedLevel(part, bps);
    EncodedBytes(v, bps, Truncate);
    assert e == LeBytes(raw - 1, 2);
    LeValueOfBytes(raw - 1, 2);
    ModSmall(raw - 1, Pow256(2));
    assert LeValue(e) != LeValue(part);
  }

  /** The narrowed value SetWaves writes for a 16-bit sample it read. */
  lemma TruncatedLevel(part: seq<Byte>, bps: U16)
    requires |part| == 2 && bps / 8 == 2 && LeValue(part) >= 1
    ensures Level(DecodeSample(part, bps), |part|, Truncate) % Two32 == LeValue(part) - 1
  {
    var n, raw := |part|, LeValue(part);
    assert DecodeSample(part, bps) == Upscale(raw, n);
    DownscaleAfterUpscale(raw, n);
    Pow256Values();
    ModSmall(raw - 1, Two32);
  }

  /** Writing back an 8-bit sample that was read, truncating as SetWaves
      does: the toggled value drops by one, so a stored byte b is written
      back as Bias(Bias(b) - 1); only the stored 127 (toggled 0) survives. */
  lemma TruncatedByteWriteAfterRead(part: seq<Byte>, bps: U16)
    requires |part| == 1 && bps / 8 == 1 && bps <= 8
    ensures Bias(part[0]) >= 1 ==>
      EncodeSample(DecodeSample(part, bps), bps, Truncate) == [Bias(Bias(part[0]) - 1)]
    ensures Bias(part[0]) == 0 ==> EncodeSample(DecodeSample(part, bps), bps, Truncate) == part
  {
    var t := Bias(part[0]);
    var v := DecodeSample(part, bps);
    DecodeByte(part, bps);
    EncodedBytes(v, bps, Truncate);
    Pow256Values();
    if t >= 1 {
      DownscaleAfterUpscale(t, 1);
      ModSmall(t - 1, Two32);
      ModSmall(t - 1, 256);
    } else {
      assert v == 0;
      assert part[0] == 127;
    }
  }

  /** A 16-bit sample stored as 1 reads as 65535 and is written back as 0. */
  lemma SixteenBitDrift()
    ensures DecodeSample([1, 0], 16) == 65535
    ensures EncodeSample(65535, 16, Truncate) == [0, 0]
  {
    assert LeValue([1, 0]) == 1 by {
      assert [1, 0][1..] == [0];
      assert [0][1..] == [];
    }
    TruncatedWriteAfterRead([1, 0], 16);
    Pow256Values();
  }

  /** The amplitude read from an all-zero sample: 0, or, at 8 bits, the value
      of the toggled byte 127. */
  function Silence(bps: U16): U32
    requires 1 <= bps / 8 <= 4
  {
    if bps <= 8 then Upscale(127, 1) else 0
  }

  lemma SilenceOfZeros(bps: U16)
    requires 1 <= bps / 8 <= 4
    ensures DecodeSample(seq(bps / 8, _ => 0), bps) == Silence(bps)
  {
    var z: seq<Byte> := seq(bps / 8, _ => 0);
    Pow256Values();
    if bps <= 8 {
      var t := [Bias(z[0])] + z[1..];
      assert t == [127];
      assert LeValue(t) == 127 by {
        assert t[1..] == [];
      }
    } else {
      ZerosValue(bps / 8);
    }
  }

  // ---------------------------------------------------------------------
  // Byte layout of the samples
  // ---------------------------------------------------------------------

  /** Offset of byte j of the sample of channel c in frame b, for w channels
      of n bytes: a frame takes w * n bytes after the 44-byte header. */
  function Pos(b: nat, c: nat, j: nat, w: nat, n: nat): (p: nat)
    ensures 44 + j <= p
  {
    44 + b * (w * n) + c * n + j
  }

  lemma MulLe(x: nat, y: nat, k: nat)
    requires x <= y
    ensures x * k <= y * k
  {
    assert y * k == x * k + (y - x) * k;
  }

  /** Samples are laid out in order: frame, then channel, then byte. */
  lemma PosLess(b1: nat, c1: nat, j1: nat, b2: nat, c2: nat, j2: nat, w: nat, n: nat)
    requires c1 < w && j1 < n
    requires b1 < b2 || (b1 == b2 && (c1 < c2 || (c1 == c2 && j1 < j2)))
    ensures Pos(b1, c1, j1, w, n) < Pos(b2, c2, j2, w, n)
  {
    var m := w * n;
    assert (c1 + 1) * n == c1 * n + n;
    if b1 < b2 {
      MulLe(c1 + 1, w, n);
      MulLe(b1 + 1, b2, m);
      assert (b1 + 1) * m == b1 * m + m;
    } else if c1 < c2 {
      MulLe(c1 + 1, c2, n);
    }
  }

  lemma PosMono(b1: nat, b2: nat, w: nat, n: nat)
    requires b1 <= b2
    ensures Pos(b1, 0, 0, w, n) <= Pos(b2, 0, 0, w, n)
  {
    MulLe(b1, b2, w * n);
  }

  function Min(x: nat, y: nat): nat
  {
    if x <= y then x else y
  }

  /** The sample area of a wave: from frame first on, each sample's bytes are
      its encoding; the frames before first are zero bytes. */
  ghost predicate Payload(bytes: seq<Byte>, a: Audio, bps: U16, s: Scaling, first: nat)
    requires a.Rect() && bps / 8 <= 4
  {
    var w, n, rows := a.width, bps / 8, |a.frames|;
    && |bytes| == Pos(rows, 0, 0, w, n)
    && Written(bytes, a, bps, s, first, rows)
    && (forall p :: 44 <= p < Pos(Min(first, rows), 0, 0, w, n) ==> p < |bytes| && bytes[p] == 0)
  }

  /** A complete wave for grid a: the header of a DotWaveInfo holding a at the
      given rate and depth, then the payload. */
  ghost predicate WaveOf(bytes: seq<Byte>, a: Audio, rate: U32, bps: U16, s: Scaling, first: nat)
  {
    && a.Rect() && bps / 8 <= 4
    && HeaderHolds(bytes, PcmFormat, Derive(a.width, |a.frames|, rate, bps), rate, bps)
    && Payload(bytes, a, bps, s, first)
  }

  // ---------------------------------------------------------------------
  // Reading: GetWaves
  // ---------------------------------------------------------------------

  /** What GetWaves needs of its input: the header fields it reads exist, a
      frame has a positive size (it divides by it), the frame count it
      computes is not negative, and whenever a sample is read it fits the
      4-byte buffer. */
  predicate Readable(bytes: seq<Byte>)
  {
    && |bytes| >= 36
    && var nc, n := Le16(bytes, 22), Le16(bytes, 34) / 8;
    && nc * n > 0
    && (|bytes| >= 44 || 44 - |bytes| < nc * n)
    && (n <= 4 || |bytes| < 44 + nc * n)
  }

  /** The frame count GetWaves allocates: the data length over the frame size
      (the quotient of a small negative length is truncated to zero). */
  function Frames(bytes: seq<Byte>): nat
    requires Readable(bytes)
  {
    if |bytes| >= 44 then Quotient(|bytes| - 44, Le16(bytes, 22) * (Le16(bytes, 34) / 8)) else 0
  }

  /** Integer division of a length by a positive size. */
  function Quotient(x: nat, d: nat): nat
    requires d > 0
  {
    x / d
  }

  /** Every sample of every frame GetWaves reads lies inside the input. */
  lemma FrameInBounds(bytes: seq<Byte>, b: nat, c: nat)
    requires Readable(bytes) && b < Frames(bytes) && c < Le16(bytes, 22)
    ensures var nc, n := Le16(bytes, 22), Le16(bytes, 34) / 8;
      1 <= n <= 4 && Pos(b, c, n, nc, n) <= |bytes|
  {
    var nc, n := Le16(bytes, 22), Le16(bytes, 34) / 8;
    var d, rows := nc * n, Frames(bytes);
    assert rows * d <= |bytes| - 44;
    MulLe(1, rows, d);
    MulLe(b + 1, rows, d);
    MulLe(c + 1, nc, n);
    assert (b + 1) * d == b * d + d;
    assert (c + 1) * n == c * n + n;
  }

  /** The amplitude GetWaves reads for channel c of frame b. */
  ghost function SampleAt(bytes: seq<Byte>, b: nat, c: nat): U32
    requires Readable(bytes) && b < Frames(bytes) && c < Le16(bytes, 22)
  {
    FrameInBounds(bytes, b, c);
    var nc, bps := Le16(bytes, 22), Le16(bytes, 34);
    DecodeSample(bytes[Pos(b, c, 0, nc, bps / 8)..Pos(b, c, bps / 8, nc, bps / 8)], bps)
  }

  /** a is the grid GetWaves reads from bytes: one column per channel of the
      header, Frames(bytes) frames, and each sample decoded from its place. */
  ghost predicate ReadsAs(bytes: seq<Byte>, a: Audio)
    requires Readable(bytes)
  {
    && a.Rect() && a.width == Le16(bytes, 22) && |a.frames| == Frames(bytes)
    && forall b, c :: 0 <= b < |a.frames| && 0 <= c < a.width ==> a.frames[b][c] == SampleAt(bytes, b, c)
  }

  /** GetWaves' copy of one sample's n bytes into a zeroed 4-byte buffer. */
  method CopySample(bytes: seq<Byte>, start: nat, n: nat) returns (part: array<Byte>)
    requires n <= 4 && start + n <= |bytes|
    ensures fresh(part) && part[..] == bytes[start..start + n] + seq(4 - n, _ => 0)
  {
    part := new Byte[4](_ => 0);
    for i := 0 to n
      invariant part[..] == bytes[start..start + i] + seq(4 - i, _ => 0)
    {
      part[i] := bytes[start + i];
    }
  }

  /** The body of GetWaves' channel loop: copies the sample's bytes into a
      zeroed 4-byte buffer, toggles the first at 8 bits, reads the buffer as a
      UInt32 and widens it. */
  method ReadSample(bytes: seq<Byte>, block: nat, ch: nat) returns (upart: U32)
    requires Readable(bytes) && block < Frames(bytes) && ch < Le16(bytes, 22)
    ensures upart == SampleAt(bytes, block, ch)
  {
    var numChannels: nat := Le16(bytes, 22);
    var bitsPerSample := Le16(bytes, 34);
    var n: nat := bitsPerSample / 8;
    FrameInBounds(bytes, block, ch);
    var start := 44 + block * (numChannels * n) + ch * n;
    var part := CopySample(bytes, start, n);
    ghost var sample := bytes[start..start + n];
    assert sample == bytes[Pos(block, ch, 0, numChannels, n)..Pos(block, ch, n, numChannels, n)];
    if bitsPerSample <= 8 {
      if part[0] < 127 {
        part[0] := part[0] + 127;
      } else {
        part[0] := part[0] - 127;
      }
    }
    assert part[..] == Toggled(sample, bitsPerSample) + seq(4 - n, _ => 0);
    PaddedDecode(sample, bitsPerSample, part[..]);
    upart := Le32(part[..], 0);
    upart := Upscale(upart, n);
  }

  /** The stored bytes of a sample as GetWaves reads them: the first one
      toggled at 8 bits. */
  function Toggled(sample: seq<Byte>, bps: U16): (t: seq<Byte>)
    requires 1 <= |sample|
    ensures |t| == |sample|
  {
    if bps <= 8 then [Bias(sample[0])] + sample[1..] else sample
  }

  /** Reading the zero-padded 4-byte buffer as a UInt32 and widening it
      decodes the sample. */
  lemma PaddedDecode(sample: seq<Byte>, bps: U16, buf: seq<Byte>)
    requires 1 <= |sample| <= 4 && |sample| == bps / 8
    requires buf == Toggled(sample, bps) + seq(4 - |sample|, _ => 0)
    ensures Le32(buf, 0) < Pow256(|sample|)
    ensures Upscale(Le32(buf, 0), |sample|) == DecodeSample(sample, bps)
  {
    var t := Toggled(sample, bps);
    LeValueZeroPadded(t, 4 - |sample|);
    assert buf[0..4] == buf;
    Le32Value(buf, 0);
  }

  /** GetWaves: parses the channel count, the rate and the depth from the
      header and decodes every sample into a new grid. */
  method GetWaves(bytes: seq<Byte>) returns (info: DotWaveInfo)
    requires Readable(bytes)
    ensures fresh(info) && info.Valid()
    ensures info.sampleRate == Le32(bytes, 24) && info.bitsPerSample == Le16(bytes, 34)
    ensures ReadsAs(bytes, info.data)
  {
    var numChannels: nat := Le16(bytes, 22);
    var sampleRate := Le32(bytes, 24);
    var bitsPerSample := Le16(bytes, 34);
    var n: nat := bitsPerSample / 8;
    var rows := if |bytes| >= 44 then (|bytes| - 44) / (numChannels * n) else 0;
    assert rows == Frames(bytes);
    var wData := new U32[rows, numChannels];
    for block := 0 to rows
      invariant forall b, c :: 0 <= b < block && 0 <= c < numChannels ==> wData[b, c] == SampleAt(bytes, b, c)
    {
      ReadFrame(bytes, wData, block);
    }
    info := new DotWaveInfo(ToAudio(wData), sampleRate, bitsPerSample);
  }

  /** One pass of GetWaves' frame loop: fills row block of the grid, channel
      by channel, and leaves the other rows alone. */
  method ReadFrame(bytes: seq<Byte>, wData: array2<U32>, block: nat)
    requires Readable(bytes) && block < Frames(bytes)
    requires wData.Length0 == Frames(bytes) && wData.Length1 == Le16(bytes, 22)
    modifies wData
    ensures forall c :: 0 <= c < wData.Length1 ==> wData[block, c] == SampleAt(bytes, block, c)
    ensures forall b, c :: 0 <= b < wData.Length0 && b != block && 0 <= c < wData.Length1 ==> wData[b, c] == old(wData[b, c])
  {
    for ch := 0 to wData.Length1
      invariant forall c :: 0 <= c < ch ==> wData[block, c] == SampleAt(bytes, block, c)
      invariant forall b, c :: 0 <= b < wData.Length0 && b != block && 0 <= c < wData.Length1 ==> wData[b, c] == old(wData[b, c])
    {
      var upart := ReadSample(bytes, block, ch);
      wData[block, ch] := upart;
    }
  }

  // ---------------------------------------------------------------------
  // Writing: SetWaves
  // ---------------------------------------------------------------------

  /** BitConverter.GetBytes(v).CopyTo(arr, off) for a field of the given width:
      the field holds v's little-endian bytes and no byte outside it changes. */
  method Put(arr: array<Byte>, off: nat, v: nat, width: nat)
    requires off + width <= arr.Length
    modifies arr
    ensures forall i :: 0 <= i < width ==> arr[off + i] == LeBytes(v, width)[i]
    ensures forall k :: 0 <= k < arr.Length && !(off <= k < off + width) ==> arr[k] == old(arr[k])
  {
    var src := LeBytes(v, width);
    for i := 0 to width
      invariant forall i' :: 0 <= i' < i ==> arr[off + i'] == src[i']
      invariant forall k :: 0 <= k < arr.Length && !(off <= k < off + i) ==> arr[k] == old(arr[k])
    {
      arr[off + i] := src[i];
    }
  }

  /** The field at off reads back as v once its bytes are v's. */
  lemma Field32(s: seq<Byte>, off: nat, v: U32)
    requires off + 4 <= |s|
    requires s[off] == LeBytes(v, 4)[0] && s[off + 1] == LeBytes(v, 4)[1]
    requires s[off + 2] == LeBytes(v, 4)[2] && s[off + 3] == LeBytes(v, 4)[3]
    ensures Le32(s, off) == v
  {
    assert s[off..off + 4] == LeBytes(v, 4);
    Le32RoundTrip(v, s, off);
  }

  lemma Field16(s: seq<Byte>, off: nat, v: U16)
    requires off + 2 <= |s|
    requires s[off] == LeBytes(v, 2)[0] && s[off + 1] == LeBytes(v, 2)[1]
    ensures Le16(s, off) == v
  {
    assert s[off..off + 2] == LeBytes(v, 2);
    Le16RoundTrip(v, s, off);
  }

  /** The header writes of SetWaves at offsets 0 to 11: the RIFF chunk. */
  method WriteRiff(arr: array<Byte>, info: DotWaveInfo)
    requires arr.Length >= 44
    modifies arr
    ensures Le32(arr[..], 0) == info.chunkID && Le32(arr[..], 4) == info.chunkSize
    ensures Le32(arr[..], 8) == info.format
    ensures forall k :: 12 <= k < arr.Length ==> arr[k] == old(arr[k])
  {
    Put(arr, 0, info.chunkID, 4);
    Put(arr, 4, info.chunkSize, 4);
    Put(arr, 8, info.format, 4);
    var s := arr[..];
    Field32(s, 0, info.chunkID);
    Field32(s, 4, info.chunkSize);
    Field32(s, 8, info.format);
  }

  /** The header writes of SetWaves at offsets 12 to 19: the format chunk's
      tag and size. */
  method WriteFormatTag(arr: array<Byte>, info: DotWaveInfo)
    requires arr.Length >= 44
    modifies arr
    ensures Le32(arr[..], 12) == info.subchunk1ID && Le32(arr[..], 16) == info.subchunk1Size
    ensures forall k :: 0 <= k < arr.Length && !(12 <= k < 20) ==> arr[k] == old(arr[k])
  {
    Put(arr, 12, info.subchunk1ID, 4);
    Put(arr, 16, info.subchunk1Size, 4);
    var s := arr[..];
    Field32(s, 12, info.subchunk1ID);
    Field32(s, 16, info.subchunk1Size);
  }

  /** The header writes of SetWaves at offsets 20 to 35: the PCM format. */
  method WriteFormat(arr: array<Byte>, info: DotWaveInfo)
    requires arr.Length >= 44
    modifies arr
    ensures Le16(arr[..], 20) == info.audioFormat && Le16(arr[..], 22) == info.numChannels
    ensures Le32(arr[..], 24) == info.sampleRate && Le32(arr[..], 28) == info.byteRate
    ensures Le16(arr[..], 32) == info.blockAlign && Le16(arr[..], 34) == info.bitsPerSample
    ensures forall k :: 0 <= k < arr.Length && !(20 <= k < 36) ==> arr[k] == old(arr[k])
  {
    Put(arr, 20, info.audioFormat, 2);
    Put(arr, 22, info.numChannels, 2);
    Put(arr, 24, info.sampleRate, 4);
    Put(arr, 28, info.byteRate, 4);
    Put(arr, 32, info.blockAlign, 2);
    Put(arr, 34, info.bitsPerSample, 2);
    var s := arr[..];
    Field16(s, 20, info.audioFormat);
    Field16(s, 22, info.numChannels);
    Field32(s, 24, info.sampleRate);
    Field32(s, 28, info.byteRate);
    Field16(s, 32, info.blockAlign);
    Field16(s, 34, info.bitsPerSample);
  }

  /** The header writes of SetWaves at offsets 36 to 43: the data chunk's tag
      and size. */
  method WriteDataTag(arr: array<Byte>, info: DotWaveInfo)
    requires arr.Length >= 44
    modifies arr
    ensures Le32(arr[..], 36) == info.subchunk2ID && Le32(arr[..], 40) == info.subchunk2Size
    ensures forall k :: 0 <= k < arr.Length && !(36 <= k < 44) ==> arr[k] == old(arr[k])
  {
    Put(arr, 36, info.subchunk2ID, 4);
    Put(arr, 40, info.subchunk2Size, 4);
    var s := arr[..];
    Field32(s, 36, info.subchunk2ID);
    Field32(s, 40, info.subchunk2Size);
  }

  /** Header fields inside [lo, hi) read the same from two strings that agree there. */
  lemma KeepFields(s: seq<Byte>, t: seq<Byte>, lo: nat, hi: nat)
    requires hi <= |s| && hi <= |t| && forall k :: lo <= k < hi ==> s[k] == t[k]
    ensures forall off :: lo <= off && off + 4 <= hi ==> Le32(s, off) == Le32(t, off)
    ensures forall off :: lo <= off && off + 2 <= hi ==> Le16(s, off) == Le16(t, off)
  {
  }

  /** The thirteen header writes of SetWaves. */
  method WriteHeader(arr: array<Byte>, info: DotWaveInfo)
    requires arr.Length >= 44
    modifies arr
    ensures HeaderHolds(arr[..], info.audioFormat,
                        Derived(info.numChannels, info.blockAlign, info.byteRate, info.subchunk2Size, info.chunkSize),
                        info.sampleRate, info.bitsPerSample)
    ensures forall k :: 44 <= k < arr.Length ==> arr[k] == old(arr[k])
  {
    WriteRiff(arr, info);
    ghost var s1 := arr[..];
    WriteFormatTag(arr, info);
    ghost var s2 := arr[..];
    WriteFormat(arr, info);
    ghost var s3 := arr[..];
    WriteDataTag(arr, info);
    ghost var s4 := arr[..];
    KeepFields(s4, s1, 0, 12);
    KeepFields(s4, s2, 12, 20);
    KeepFields(s4, s3, 20, 36);
  }

  /** HeaderHolds depends on the first 44 bytes only. */
  lemma HeaderPrefix(s: seq<Byte>, t: seq<Byte>, audioFormat: U16, d: Derived, rate: U32, bps: U16)
    requires HeaderHolds(t, audioFormat, d, rate, bps) && |s| >= 44 && s[..44] == t[..44]
    ensures HeaderHolds(s, audioFormat, d, rate, bps)
  {
    forall k | 0 <= k < 44 ensures s[k] == t[k] {
      assert s[..44][k] == t[..44][k];
    }
    KeepFields(s, t, 0, 44);
  }

  /** The body of SetWaves' channel loop: writes the encoding of amplitude v
      at off (the toggled lowest byte at 8 bits), and nothing else. */
  method WriteSample(arr: array<Byte>, v: U32, bps: U16, s: Scaling, off: nat)
    requires bps / 8 <= 4 && off + bps / 8 <= arr.Length
    modifies arr
    ensures forall j :: 0 <= j < bps / 8 ==> arr[off + j] == EncodeSample(v, bps, s)[j]
    ensures Outside(old(arr[..]), arr[..], off, off + bps / 8)
  {
    var n: nat := bps / 8;
    var val := LeBytes(Level(v, n, s) % Two32, 4);
    for i := 0 to n
      invariant forall j :: 0 <= j < i ==> arr[off + j] == EncodeSample(v, bps, s)[j]
      invariant forall k :: 0 <= k < arr.Length && !(off <= k < off + i) ==> arr[k] == old(arr[k])
    {
      if bps > 8 {
        arr[off + i] := val[i];
      } else {
        var vl := val[0];
        if vl < 127 {
          vl := vl + 127;
        } else {
          vl := vl - 127;
        }
        arr[off + i] := vl;
      }
    }
  }

  /** The whole sample area of a grid fits its byte array. */
  lemma PosFits(b: nat, c: nat, w: nat, n: nat, rows: nat)
    requires b < rows && c < w
    ensures Pos(b, c, n, w, n) <= Pos(rows, 0, 0, w, n)
  {
    if n > 0 {
      PosLess(b, c, n - 1, rows, 0, 0, w, n);
    }
  }

  /** What SetWaves needs: samples of at most four bytes (it indexes a 4-byte
      buffer) and an output that fits a .NET array. */
  predicate Writable(a: Audio, bps: U16)
  {
    a.Rect() && bps / 8 <= 4 && Pos(|a.frames|, 0, 0, a.width, bps / 8) <= MaxLength
  }

  /** One pass of SetWaves' frame loop: writes the samples of frame block,
      channel by channel, and nothing outside that frame. */
  method WriteFrame(arr: array<Byte>, a: Audio, bps: U16, s: Scaling, block: nat)
    requires a.Rect() && block < |a.frames| && bps / 8 <= 4
    requires arr.Length == Pos(|a.frames|, 0, 0, a.width, bps / 8)
    modifies arr
    ensures Written(arr[..], a, bps, s, block, block + 1)
    ensures Outside(old(arr[..]), arr[..], Pos(block, 0, 0, a.width, bps / 8), Pos(block + 1, 0, 0, a.width, bps / 8))
  {
    var w, n: nat := a.width, bps / 8;
    ghost var orig := arr[..];
    FrameSpan(block, w, n, |a.frames|);
    var ch := 0;
    while ch < w
      invariant ch <= w
      invariant Slots(arr[..], a, bps, s, block, ch)
      invariant Outside(orig, arr[..], Pos(block, 0, 0, w, n), Pos(block, ch, 0, w, n))
    {
      var off := 44 + block * w * n + ch * n;
      SlotSpan(block, ch, w, n, |a.frames|);
      ghost var before := arr[..];
      WriteSample(arr, a.frames[block][ch], bps, s, off);
      SlotStep(before, arr[..], orig, a, bps, s, block, ch);
      ch := ch + 1;
    }
  }

  /** Channels 0 up to ch of frame block hold their encodings. */
  ghost predicate Slots(t: seq<Byte>, a: Audio, bps: U16, s: Scaling, block: nat, ch: nat)
    requires a.Rect() && block < |a.frames| && ch <= a.width && bps / 8 <= 4
  {
    forall c, j :: 0 <= c < ch && 0 <= j < bps / 8 ==>
      Pos(block, c, j, a.width, bps / 8) < |t| &&
      t[Pos(block, c, j, a.width, bps / 8)] == EncodeSample(a.frames[block][c], bps, s)[j]
  }

  /** Writing channel ch of frame block extends the channel loop's state by
      one channel. */
  lemma SlotStep(t: seq<Byte>, u: seq<Byte>, orig: seq<Byte>, a: Audio, bps: U16, s: Scaling, block: nat, ch: nat)
    requires a.Rect() && block < |a.frames| && ch < a.width && bps / 8 <= 4
    requires |t| == Pos(|a.frames|, 0, 0, a.width, bps / 8)
    requires Slots(t, a, bps, s, block, ch)
    requires Outside(orig, t, Pos(block, 0, 0, a.width, bps / 8), Pos(block, ch, 0, a.width, bps / 8))
    requires Outside(t, u, Pos(block, ch, 0, a.width, bps / 8), Pos(block, ch + 1, 0, a.width, bps / 8))
    requires forall j :: 0 <= j < bps / 8 ==>
               Pos(block, ch, 0, a.width, bps / 8) + j < |u| &&
               u[Pos(block, ch, 0, a.width, bps / 8) + j] == EncodeSample(a.frames[block][ch], bps, s)[j]
    ensures Slots(u, a, bps, s, block, ch + 1)
    ensures ch + 1 == a.width ==> Written(u, a, bps, s, block, block + 1)
    ensures Outside(orig, u, Pos(block, 0, 0, a.width, bps / 8), Pos(block, ch + 1, 0, a.width, bps / 8))
  {
    var w, n := a.width, bps / 8;
    SlotSpan(block, ch, w, n, |a.frames|);
    forall c, j | 0 <= c <= ch && 0 <= j < n
      ensures Pos(block, c, j, w, n) < |u| && u[Pos(block, c, j, w, n)] == EncodeSample(a.frames[block][c], bps, s)[j]
    {
      if c < ch {
        PosLess(block, c, j, block, ch, 0, w, n);
        assert t[Pos(block, c, j, w, n)] == EncodeSample(a.frames[block][c], bps, s)[j];
      } else {
        assert Pos(block, c, j, w, n) == Pos(block, ch, 0, w, n) + j;
      }
    }
  }

  /** Frame b of a grid of rows frames starts after the header and ends where
      frame b + 1 starts, inside the array. */
  lemma FrameSpan(b: nat, w: nat, n: nat, rows: nat)
    requires b < rows
    ensures 44 <= Pos(b, 0, 0, w, n) <= Pos(b, w, 0, w, n) == Pos(b + 1, 0, 0, w, n) <= Pos(rows, 0, 0, w, n)
  {
    assert (b + 1) * (w * n) == b * (w * n) + w * n;
    MulLe(0, b, w * n);
    MulLe(0, w, n);
    PosMono(b + 1, rows, w, n);
  }

  /** The sample of channel c in frame b lies inside that frame, at the offset
      SetWaves computes, and ends where the next channel's starts. */
  lemma SlotSpan(b: nat, c: nat, w: nat, n: nat, rows: nat)
    requires b < rows && c < w
    ensures 44 + b * w * n + c * n == Pos(b, c, 0, w, n)
    ensures Pos(b, 0, 0, w, n) <= Pos(b, c, 0, w, n)
    ensures Pos(b, c, n, w, n) == Pos(b, c + 1, 0, w, n) <= Pos(b + 1, 0, 0, w, n) <= Pos(rows, 0, 0, w, n)
  {
    assert b * w * n == b * (w * n);
    assert (c + 1) * n == c * n + n;
    MulLe(0, c, n);
    PosFits(b, c, w, n, b + 1);
    PosMono(b + 1, rows, w, n);
  }

  /** Frames lo up to hi (and below the frame count) hold their encodings. */
  ghost predicate Written(t: seq<Byte>, a: Audio, bps: U16, s: Scaling, lo: nat, hi: nat)
    requires a.Rect() && bps / 8 <= 4
  {
    forall b, c, j :: lo <= b < hi && b < |a.frames| && 0 <= c < a.width && 0 <= j < bps / 8 ==>
      Pos(b, c, j, a.width, bps / 8) < |t| &&
      t[Pos(b, c, j, a.width, bps / 8)] == EncodeSample(a.frames[b][c], bps, s)[j]
  }

  /** u differs from t at most at the offsets lo up to hi. */
  ghost predicate Outside(t: seq<Byte>, u: seq<Byte>, lo: nat, hi: nat)
  {
    |t| == |u| && forall k :: 0 <= k < |t| && !(lo <= k < hi) ==> u[k] == t[k]
  }

  /** The state of SetWaves' frame loop before frame block: the bytes before
      the first frame it writes are those of orig, and frames first up to
      block hold their encodings. */
  ghost predicate Partial(t: seq<Byte>, orig: seq<Byte>, a: Audio, bps: U16, s: Scaling, first: nat, block: nat)
    requires a.Rect() && bps / 8 <= 4
  {
    && |t| == |orig| == Pos(|a.frames|, 0, 0, a.width, bps / 8)
    && (forall k :: 0 <= k < |t| && k < Pos(Min(first, |a.frames|), 0, 0, a.width, bps / 8) ==> t[k] == orig[k])
    && Written(t, a, bps, s, first, block)
  }

  /** Writing frame block extends the loop state by one frame. */
  lemma FrameStep(t: seq<Byte>, u: seq<Byte>, orig: seq<Byte>, a: Audio, bps: U16, s: Scaling, first: nat, block: nat)
    requires a.Rect() && bps / 8 <= 4 && first <= block < |a.frames|
    requires Partial(t, orig, a, bps, s, first, block) && Written(u, a, bps, s, block, block + 1)
    requires Outside(t, u, Pos(block, 0, 0, a.width, bps / 8), Pos(block + 1, 0, 0, a.width, bps / 8))
    ensures Partial(u, orig, a, bps, s, first, block + 1)
  {
    var w, n, rows := a.width, bps / 8, |a.frames|;
    FrameSpan(block, w, n, rows);
    PosMono(Min(first, rows), block, w, n);
    forall b, c, j | first <= b < block && 0 <= c < w && 0 <= j < n
      ensures Pos(b, c, j, w, n) < Pos(block, 0, 0, w, n)
    {
      PosLess(b, c, j, block, 0, 0, w, n);
    }
  }

  /** SetWaves' frame loop over a zeroed sample area: from frame first on,
      every sample at its offset; the header bytes are left alone. */
  method WriteFrames(arr: array<Byte>, a: Audio, bps: U16, s: Scaling, first: nat)
    requires Writable(a, bps) && arr.Length == Pos(|a.frames|, 0, 0, a.width, bps / 8)
    requires forall p :: 44 <= p < arr.Length ==> arr[p] == 0
    modifies arr
    ensures forall k :: 0 <= k < 44 ==> arr[k] == old(arr[k])
    ensures Payload(arr[..], a, bps, s, first)
  {
    ghost var orig := arr[..];
    var block := first;
    while block < |a.frames|
      invariant first <= block && (block <= |a.frames| || block == first)
      invariant Partial(arr[..], orig, a, bps, s, first, block)
    {
      ghost var before := arr[..];
      WriteFrame(arr, a, bps, s, block);
      FrameStep(before, arr[..], orig, a, bps, s, first, block);
      block := block + 1;
    }
    FramesDone(arr[..], orig, a, bps, s, first, block);
  }

  /** When the frame loop ends, the sample area is the payload and the header
      is as it was. */
  lemma FramesDone(t: seq<Byte>, orig: seq<Byte>, a: Audio, bps: U16, s: Scaling, first: nat, block: nat)
    requires a.Rect() && bps / 8 <= 4 && |a.frames| <= block
    requires forall p :: 44 <= p < |orig| ==> orig[p] == 0
    requires Partial(t, orig, a, bps, s, first, block)
    ensures 44 <= |t| && forall k :: 0 <= k < 44 ==> t[k] == orig[k]
    ensures Payload(t, a, bps, s, first)
  {
    var w, n, rows := a.width, bps / 8, |a.frames|;
    MulLe(0, Min(first, rows), w * n);
    PosMono(Min(first, rows), rows, w, n);
  }

  /** The body of SetWaves, with the first frame it encodes and the way it
      narrows amplitudes as parameters: the header, then, from frame first
      on, every sample at its offset. */
  method WriteWave(info: DotWaveInfo, first: nat, s: Scaling) returns (bytes: seq<Byte>)
    requires Writable(info.data, info.bitsPerSample)
    ensures HeaderHolds(bytes, info.audioFormat,
                        Derived(info.numChannels, info.blockAlign, info.byteRate, info.subchunk2Size, info.chunkSize),
                        info.sampleRate, info.bitsPerSample)
    ensures Payload(bytes, info.data, info.bitsPerSample, s, first)
  {
    var a := info.data;
    var bps := info.bitsPerSample;
    var n: nat := bps / 8;
    var arr := new Byte[44 + |a.frames| * a.width * n](_ => 0);
    assert |a.frames| * a.width * n == |a.frames| * (a.width * n);
    WriteHeader(arr, info);
    ghost var header := arr[..];
    WriteFrames(arr, a, bps, s, first);
    bytes := arr[..];
    assert bytes[..44] == header[..44];
    HeaderPrefix(bytes, header, info.audioFormat,
                 Derived(info.numChannels, info.blockAlign, info.byteRate, info.subchunk2Size, info.chunkSize),
                 info.sampleRate, bps);
  }

  /** SetWaves as written: encodes from frame 1000 on, truncating. */
  method SetWaves(info: DotWaveInfo) returns (bytes: seq<Byte>)
    requires info.Valid() && Writable(info.data, info.bitsPerSample)
    ensures WaveOf(bytes, info.data, info.sampleRate, info.bitsPerSample, Truncate, 1000)
  {
    bytes := WriteWave(info, 1000, Truncate);
  }

  /** SetWaves as evidently intended: every frame, rounding to the nearest
      stored value. */
  method Encode(info: DotWaveInfo) returns (bytes: seq<Byte>)
    requires info.Valid() && Writable(info.data, info.bitsPerSample)
    ensures WaveOf(bytes, info.data, info.sampleRate, info.bitsPerSample, Nearest, 0)
  {
    bytes := WriteWave(info, 0, Nearest);
  }

  // ---------------------------------------------------------------------
  // Reading back what was written
  // ---------------------------------------------------------------------

  /** The grid GetWaves reads back from a wave written from a: the frames
      before first read as silence, the others as their encoding decoded. */
  function Reread(a: Audio, bps: U16, s: Scaling, first: nat): (r: Audio)
    requires a.Rect() && 1 <= bps / 8 <= 4
    ensures r.Rect() && r.width == a.width && |r.frames| == |a.frames|
    ensures forall b, c :: 0 <= b < |a.frames| && 0 <= c < a.width ==>
              r.frames[b][c] == if b < first then Silence(bps) else DecodeSample(EncodeSample(a.frames[b][c], bps, s), bps)
  {
    Audio(a.width, seq(|a.frames|, b requires 0 <= b < |a.frames| =>
      seq(a.width, c requires 0 <= c < a.width =>
        if b < first then Silence(bps) else DecodeSample(EncodeSample(a.frames[b][c], bps, s), bps))))
  }

  /** A written wave with 1 to 65535 channels and 1 to 4 bytes per sample
      passes IsWave, can be read, and its header gives back the channel count,
      the rate, the depth and the frame count. */
  lemma WrittenWaveReadable(bytes: seq<Byte>, a: Audio, rate: U32, bps: U16, s: Scaling, first: nat)
    requires WaveOf(bytes, a, rate, bps, s, first)
    requires 1 <= a.width < 0x1_0000 && 1 <= bps / 8
    ensures IsWave(bytes) == None && Readable(bytes)
    ensures Le16(bytes, 22) == a.width && Le32(bytes, 24) == rate && Le16(bytes, 34) == bps
    ensures Frames(bytes) == |a.frames|
  {
    var w, n, rows := a.width, bps / 8, |a.frames|;
    ModSmall(w, 0x1_0000);
    assert Le16(bytes, 22) == w;
    MulLe(1, w, n);
    FrameCount(|bytes|, w * n, rows);
  }

  /** The frame count of a sample area of rows frames of d bytes. */
  lemma FrameCount(len: nat, d: nat, rows: nat)
    requires 0 < d && len == 44 + rows * d
    ensures (len - 44) / d == rows
  {
    DivModUnique(len - 44, d, rows, 0);
  }


  /** A slice of the zeroed area is all zeros. */
  lemma ZeroRun(bytes: seq<Byte>, lo: nat, hi: nat, zeroEnd: nat)
    requires 44 <= lo <= hi <= zeroEnd && hi <= |bytes|
    requires forall p :: 44 <= p < zeroEnd ==> p < |bytes| && bytes[p] == 0
    ensures bytes[lo..hi] == seq(hi - lo, _ => 0)
  {
    forall k | 0 <= k < hi - lo ensures bytes[lo..hi][k] == 0 {
      assert bytes[lo + k] == 0;
    }
  }

  /** The bytes of one sample of a written wave: zeros before frame first,
      its encoding from there on. */
  lemma WrittenSlice(bytes: seq<Byte>, a: Audio, bps: U16, s: Scaling, first: nat, b: nat, c: nat)
    requires a.Rect() && 1 <= bps / 8 <= 4 && Payload(bytes, a, bps, s, first)
    requires b < |a.frames| && c < a.width
    ensures var w, n := a.width, bps / 8;
      Pos(b, c, n, w, n) <= |bytes| &&
      bytes[Pos(b, c, 0, w, n)..Pos(b, c, n, w, n)] ==
        if b < first then seq(n, _ => 0) else EncodeSample(a.frames[b][c], bps, s)
  {
    var w, n, rows := a.width, bps / 8, |a.frames|;
    PosFits(b, c, w, n, rows);
    var lo, hi := Pos(b, c, 0, w, n), Pos(b, c, n, w, n);
    if b < first {
      PosLess(b, c, n - 1, Min(first, rows), 0, 0, w, n);
      MulLe(0, b, w * n);
      ZeroRun(bytes, lo, hi, Pos(Min(first, rows), 0, 0, w, n));
    } else {
      var e := EncodeSample(a.frames[b][c], bps, s);
      forall j | 0 <= j < n ensures bytes[lo..hi][j] == e[j] {
        assert lo + j == Pos(b, c, j, w, n);
      }
      assert bytes[lo..hi] == e;
    }
  }

  /** One sample of a written wave reads back as Reread says. */
  lemma ReadBackSample(bytes: seq<Byte>, a: Audio, bps: U16, s: Scaling, first: nat, b: nat, c: nat)
    requires a.Rect() && 1 <= bps / 8 <= 4 && Payload(bytes, a, bps, s, first)
    requires Readable(bytes) && Le16(bytes, 22) == a.width && Le16(bytes, 34) == bps
    requires Frames(bytes) == |a.frames| && b < |a.frames| && c < a.width
    ensures SampleAt(bytes, b, c) == if b < first then Silence(bps) else DecodeSample(EncodeSample(a.frames[b][c], bps, s), bps)
  {
    WrittenSlice(bytes, a, bps, s, first, b, c);
    if b < first {
      SilenceOfZeros(bps);
    }
  }

  /** Reading back a written wave gives Reread: the frames before first as
      silence, every other sample as its encoding decoded. */
  lemma ReadBack(bytes: seq<Byte>, a: Audio, rate: U32, bps: U16, s: Scaling, first: nat, a2: Audio)
    requires WaveOf(bytes, a, rate, bps, s, first)
    requires 1 <= a.width < 0x1_0000 && 1 <= bps / 8
    requires Readable(bytes) && ReadsAs(bytes, a2)
    ensures a2 == Reread(a, bps, s, first)
  {
    WrittenWaveReadable(bytes, a, rate, bps, s, first);
    var r := Reread(a, bps, s, first);
    forall b, c | 0 <= b < |a.frames| && 0 <= c < a.width
      ensures a2.frames[b][c] == r.frames[b][c]
    {
      ReadBackSample(bytes, a, bps, s, first, b, c);
    }
    SameSamples(a2, r);
  }

  /** SetWaves as written: whatever the grid holds, the first 1000 frames of
      the file read back as silence. */
  lemma LeadingFramesSilent(bytes: seq<Byte>, a: Audio, rate: U32, bps: U16, a2: Audio)
    requires WaveOf(bytes, a, rate, bps, Truncate, 1000)
    requires 1 <= a.width < 0x1_0000 && 1 <= bps / 8
    requires Readable(bytes) && ReadsAs(bytes, a2)
    ensures a2.width == a.width && |a2.frames| == |a.frames|
    ensures forall b, c :: 0 <= b < |a2.frames| && b < 1000 && 0 <= c < a2.width ==> a2.frames[b][c] == Silence(bps)
  {
    ReadBack(bytes, a, rate, bps, Truncate, 1000, a2);
  }

  /** Encode after GetWaves, then GetWaves again, gives the same grid back at
      8, 16 and 24 bits. */
  lemma ReadWriteRead(src: seq<Byte>, a: Audio, rate: U32, bytes: seq<Byte>, a2: Audio)
    requires Readable(src) && ReadsAs(src, a) && Le16(src, 34) / 8 <= 3
    requires WaveOf(bytes, a, rate, Le16(src, 34), Nearest, 0)
    requires Readable(bytes) && ReadsAs(bytes, a2)
    ensures a2 == a
  {
    var bps := Le16(src, 34);
    var w, n := a.width, bps / 8;
    if w == 0 || n == 0 {
      assert false;
    }
    ReadBack(bytes, a, rate, bps, Nearest, 0, a2);
    forall b, c | 0 <= b < |a.frames| && 0 <= c < w
      ensures a2.frames[b][c] == a.frames[b][c]
    {
      FrameInBounds(src, b, c);
      RoundedWriteAfterRead(src[Pos(b, c, 0, w, n)..Pos(b, c, n, w, n)], bps);
    }
    SameSamples(a2, a);
  }
}
