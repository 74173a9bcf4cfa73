/** DotWaveInfo: the grid, the sample rate and the bit depth of a sound,
    plus the header fields derived from them. Every constructor and every
    setter recomputes the derived fields (RecalcAll), so the object always
    satisfies Valid(). */
module WaveInfo {
  import opened Bytes
  import opened Grid

  const RiffId: U32 := 0x46464952
  const WaveId: U32 := 0x45564157
  const FmtId: U32 := 0x20746d66
  const PcmFmtSize: U32 := 16
  const PcmFormat: U16 := 1
  const DataId: U32 := 0x61746164

  /** The header fields that RecalcAll derives. */
  datatype Derived = Derived(numChannels: U16, blockAlign: U16, byteRate: U32,
                             subchunk2Size: U32, chunkSize: U32)

  /** RecalcAll's arithmetic, with its UInt16 and UInt32 casts (the int
      products wrap modulo 2^32 before the UInt32 cast, which keeps the same
      residue). */
  function Derive(width: nat, frames: nat, rate: U32, bps: U16): Derived
  {
    var numChannels := width % 0x1_0000;
    var blockAlign := (numChannels * (bps / 8)) % 0x1_0000;
    var subchunk2Size := (frames * width * (bps / 8)) % Two32;
    Derived(numChannels, blockAlign, (rate * blockAlign) % Two32,
            subchunk2Size, (subchunk2Size + 36) % Two32)
  }

  /** Without overflow, the derived fields are exactly the format's relations. */
  lemma DeriveExact(width: nat, frames: nat, rate: U32, bps: U16)
    requires width < 0x1_0000 && width * (bps / 8) < 0x1_0000
    requires rate * (width * (bps / 8)) < Two32
    requires frames * width * (bps / 8) + 36 < Two32
    ensures var d := Derive(width, frames, rate, bps);
      && d.numChannels == width
      && d.blockAlign == width * (bps / 8)
      && d.byteRate == rate * d.blockAlign
      && d.subchunk2Size == frames * width * (bps / 8)
      && d.chunkSize == d.subchunk2Size + 36
  {
    ModSmall(width, 0x1_0000);
    ModSmall(width * (bps / 8), 0x1_0000);
    ModSmall(rate * (width * (bps / 8)), Two32);
    ModSmall(frames * width * (bps / 8), Two32);
    ModSmall(frames * width * (bps / 8) + 36, Two32);
  }

  lemma ModSmall(x: nat, m: nat)
    requires x < m
    ensures x % m == x
  {
  }

  class DotWaveInfo {
    var data: Audio
    var sampleRate: U32
    var bitsPerSample: U16

    var numChannels: U16
    var blockAlign: U16
    var byteRate: U32
    var subchunk2Size: U32
    var chunkSize: U32

    const chunkID: U32 := RiffId
    const format: U32 := WaveId
    const subchunk1ID: U32 := FmtId
    const subchunk1Size: U32 := PcmFmtSize
    const audioFormat: U16 := PcmFormat
    const subchunk2ID: U32 := DataId

    /** The grid is rectangular and the derived fields are those of RecalcAll. */
    ghost predicate Valid()
      reads this
    {
      && data.Rect()
      && Derived(numChannels, blockAlign, byteRate, subchunk2Size, chunkSize)
         == Derive(data.width, |data.frames|, sampleRate, bitsPerSample)
    }

    /** An empty grid at 44100 Hz and 16 bits. */
    constructor Default()
      ensures Valid()
      ensures data == Audio(0, []) && sampleRate == 44100 && bitsPerSample == 16
      ensures numChannels == 0 && blockAlign == 0 && byteRate == 0
      ensures subchunk2Size == 0 && chunkSize == 36
    {
      data := Audio(0, []);
      sampleRate := 44100;
      bitsPerSample := 16;
      new;
      RecalcAll();
    }

    /** A copy of another DotWaveInfo (sharing its grid). */
    constructor Copy(other: DotWaveInfo)
      requires other.data.Rect()
      ensures Valid()
      ensures data == other.data && sampleRate == other.sampleRate
      ensures bitsPerSample == other.bitsPerSample
    {
      data := other.data;
      bitsPerSample := other.bitsPerSample;
      sampleRate := other.sampleRate;
      new;
      RecalcAll();
    }

    constructor (d: Audio, rate: U32, bps: U16)
      requires d.Rect()
      ensures Valid()
      ensures data == d && sampleRate == rate && bitsPerSample == bps
    {
      data := d;
      sampleRate := rate;
      bitsPerSample := bps;
      new;
      RecalcAll();
    }

    /** Recomputes the derived fields from the grid, the rate and the depth. */
    method RecalcAll()
      requires data.Rect()
      modifies this
      ensures Valid()
      ensures data == old(data) && sampleRate == old(sampleRate)
      ensures bitsPerSample == old(bitsPerSample)
    {
      numChannels := data.width % 0x1_0000;
      blockAlign := (numChannels * (bitsPerSample / 8)) % 0x1_0000;
      byteRate := (sampleRate * blockAlign) % Two32;
      subchunk2Size := (|data.frames| * data.width * (bitsPerSample / 8)) % Two32;
      chunkSize := (subchunk2Size + 36) % Two32;
    }

    method SetSampleRate(value: U32)
      requires Valid()
      modifies this
      ensures Valid()
      ensures sampleRate == value && data == old(data) && bitsPerSample == old(bitsPerSample)
    {
      sampleRate := value;
      RecalcAll();
    }

    method SetBitsPerSample(value: U16)
      requires Valid()
      modifies this
      ensures Valid()
      ensures bitsPerSample == value && data == old(data) && sampleRate == old(sampleRate)
    {
      bitsPerSample := value;
      RecalcAll();
    }

    method SetData(value: Audio)
      requires Valid() && value.Rect()
      modifies this
      ensures Valid()
      ensures data == value && sampleRate == old(sampleRate) && bitsPerSample == old(bitsPerSample)
    {
      data := value;
      RecalcAll();
    }
  }
}
