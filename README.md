# DotWave in Dafny

DotWave is a small C# library for PCM sound. This project models its core and proves properties of that model:

- **The WAVE codec.** `DotWave.IsWave` validates the canonical 44-byte RIFF/WAVE header: the "Waveform Audio File Format" chapter of *Multimedia Programming Interface and Data Specifications 1.0*, with a 16-byte "fmt " chunk for PCM and then a "data" chunk.
  - `GetWaves` reads a byte array into a `DotWaveInfo`. `SetWaves` writes a `DotWaveInfo` back to bytes.
  - Samples are stored frame by frame and, inside a frame, channel by channel.
  - Each sample is an n-byte little-endian value, with n = bitsPerSample / 8. At 8 bits and below, the first byte is toggled by 127.
  - In memory every sample is widened to a canonical UInt32 amplitude.
- **`DotWaveInfo`.** This object holds the sample grid `UInt32[frames, channels]`, the sample rate and the bit depth. It also holds the header fields derived from them. Every constructor and setter recomputes the derived fields (`RecalcAll`).
- **`DotWaveWorker`.** Structural edits that fill fresh arrays and leave their inputs alone:
  - conversion between a grid and its channels;
  - inserting and removing columns;
  - sub-range edits on one channel (get, delete, insert, rewrite, join);
  - the same edits applied to every channel of a grid;
  - stacking grids;
  - reversal and the integer mix `Merge`.

How it is laid out:

- `bytes.dfy` (module `Bytes`): bytes, UInt16 and UInt32 as subset types of `int`; the little-endian reads `Le16`/`Le32` of `BitConverter`; their inverse `LeBytes`; the 8-bit toggle `Bias`.
- `grid.dfy` (module `Grid`): the grid is the datatype `Audio(width, frames)`. A grid with no frames still has a channel count, as `UInt32[0, n]` does.
- `info.dfy` (module `WaveInfo`): `DotWaveInfo` is a class whose setters update its fields in place. Its invariant `Valid()` says that the derived fields are those of `RecalcAll`, including the UInt16/UInt32 casts.
- `dotwave.dfy` (module `DotWave`):
  - The codec. `GetWaves` and `SetWaves` are methods with the source's loops, over arrays.
  - Each is proved against ghost specifications. `ReadsAs` says which grid a byte string reads as. `WaveOf` says which bytes a grid is written to.
- `worker.dfy` and `gridworker.dfy` (modules `Worker` and `GridWorker`): the edits. They are methods with the source's loops and counters, specified by functions over sequences.

C# exceptions (an index outside an array, a division by zero) are not modelled as results. They become preconditions: the source has no error path for them, only a crash.

## Model

| member | source | states |
|---|---|---|
| Bytes.Le16RoundTrip | DotWave/DotWave.cs:236-241 | the two bytes BitConverter writes for a UInt16 read back as that UInt16 |
| Bytes.Le32RoundTrip | DotWave/DotWave.cs:229-243 | the four bytes BitConverter writes for a UInt32 read back as that UInt32 |
| Bytes.BiasRoundTrip | DotWave/DotWave.cs:209-210 | the 8-bit toggle maps b < 127 to b + 127 and the rest to b - 127; toggling twice gives b back exactly when b <= 253 |
| Grid.MergeColumns | DotWave/DotWave.cs:285-317 | merging the columns of a grid that has at least one channel gives the grid back |
| Grid.ColumnsOfMerge | DotWave/DotWave.cs:285-317 | splitting a grid merged from equal-length channels gives the channels back |
| WaveInfo.DeriveExact | DotWave/DotWave.cs:63-70 | when nothing overflows, numChannels is the column count, blockAlign = numChannels * (bits / 8), byteRate = rate * blockAlign, subchunk2Size = frames * channels * (bits / 8) and chunkSize = subchunk2Size + 36 |
| WaveInfo.DotWaveInfo.Default | DotWave/DotWave.cs:33-39 | an empty grid at 44100 Hz and 16 bits; the invariant holds and chunkSize is 36 |
| WaveInfo.DotWaveInfo.Copy | DotWave/DotWave.cs:42-48 | the copy shares the other object's grid, rate and depth, and the invariant holds |
| WaveInfo.DotWaveInfo.constructor | DotWave/DotWave.cs:51-57 | it stores the given grid, rate and depth, and the invariant holds |
| WaveInfo.DotWaveInfo.RecalcAll | DotWave/DotWave.cs:63-70 | it establishes the invariant and changes nothing but the derived fields |
| WaveInfo.DotWaveInfo.SetSampleRate | DotWave/DotWave.cs:78-86 | the new rate is stored, grid and depth are kept, and the invariant is preserved |
| WaveInfo.DotWaveInfo.SetBitsPerSample | DotWave/DotWave.cs:93-101 | the new depth is stored, grid and rate are kept, and the invariant is preserved |
| WaveInfo.DotWaveInfo.SetData | DotWave/DotWave.cs:108-116 | the new grid is stored, rate and depth are kept, and the invariant is preserved |
| DotWave.IsWave | DotWave/DotWave.cs:166-182 | the result is null exactly when the length is at least 44 and the RIFF, WAVE, "fmt " tags, the format-chunk size 16 and the "data" tag are all present; the audio-format message is never returned |
| DotWave.IsWaveFirstFailure | DotWave/DotWave.cs:166-182 | IsWave returns the message of the first failing check, in source order |
| DotWave.IsWaveIgnoresAudioFormat | DotWave/DotWave.cs:176-178 | two inputs that differ only in the audio-format bytes 20-21 get the same verdict |
| DotWave.AudioFormatUnchecked | DotWave/DotWave.cs:176-178 | a header whose audio format is not PCM passes IsWave but fails the corrected check |
| DotWave.IsPcmWave | DotWave/DotWave.cs:176-178 | the corrected validator accepts exactly the headers IsWave accepts whose audio format is 1; otherwise it agrees with IsWave or reports the audio-format message |
| DotWave.Upscale | DotWave/DotWave.cs:212-213 | widening maps 0 to 0 and any other n-byte value raw to raw * 256^(4-n) - 1 |
| DotWave.DownscaleAfterUpscale | DotWave/DotWave.cs:213 | at 8 and 16 bits, narrowing a widened non-zero value by truncation gives the value below it |
| DotWave.RoundAfterUpscale | DotWave/DotWave.cs:213 | rounding to the nearest value undoes the widening exactly, up to 3 bytes |
| DotWave.Round | DotWave/DotWave.cs:249 | the rounded narrowing always fits n bytes |
| DotWave.EncodeSample | DotWave/DotWave.cs:249-265 | a sample is written as exactly bps / 8 bytes |
| DotWave.TruncatedWriteAfterRead | DotWave/DotWave.cs:209-213 | at 16 bits, writing back a read sample, truncating as SetWaves does, stores every non-zero value one lower, so the bytes change |
| DotWave.TruncatedByteWriteAfterRead | DotWave/DotWave.cs:209-213 | at 8 bits, writing back a read sample, truncating as SetWaves does, lowers the toggled value by one: a stored byte b comes back as Bias(Bias(b) - 1), and only the stored 127 (toggled 0) comes back unchanged |
| DotWave.SixteenBitDrift | DotWave/DotWave.cs:213 | a 16-bit sample stored as 1 reads as 65535 and is written back as 0 |
| DotWave.RoundedWriteAfterRead | DotWave/DotWave.cs:209-213 | writing back a read sample with rounding reads back the same amplitude, and at 16/24 bits (8 bits for stored bytes up to 253) gives the same bytes |
| DotWave.SilenceOfZeros | DotWave/DotWave.cs:203-213 | an all-zero sample reads as 0, or at 8 bits as the widened toggled byte 127 |
| DotWave.PosLess | DotWave/DotWave.cs:254 | sample offsets 44 + block * blockAlign + ch * (bits / 8) + i are ordered by frame, then channel, then byte |
| DotWave.CopySample | DotWave/DotWave.cs:203-207 | the 4-byte buffer holds the sample's bytes, then zeros |
| DotWave.ReadSample | DotWave/DotWave.cs:203-214 | the amplitude stored for (block, ch) is the sample at its offset, toggled at 8 bits and widened |
| DotWave.ReadFrame | DotWave/DotWave.cs:201-215 | row block receives every channel's decoded sample; other rows are unchanged |
| DotWave.GetWaves | DotWave/DotWave.cs:190-219 | the result is a fresh valid object with the header's rate and depth, the header's channel count, floor((len - 44) / blockAlign) frames, and every sample decoded from its offset |
| DotWave.WriteHeader | DotWave/DotWave.cs:229-243 | each of the thirteen header fields reads back as the object's value at its offset; the payload bytes are untouched |
| DotWave.WriteSample | DotWave/DotWave.cs:249-264 | the encoding of the amplitude is written at its offset and nothing else changes |
| DotWave.WriteFrame | DotWave/DotWave.cs:247-265 | every sample of frame block is written at its offset and no byte outside that frame changes |
| DotWave.WriteFrames | DotWave/DotWave.cs:245-266 | from the first frame written on, every sample sits at its offset; earlier frames stay zero; the header is untouched |
| DotWave.WriteWave | DotWave/DotWave.cs:227-268 | the output is the object's header followed by the payload, of length 44 + frames * channels * (bits / 8) |
| DotWave.SetWaves | DotWave/DotWave.cs:227-268 | the output is a wave of the object's grid, truncated, with frames from 1000 on encoded and the first 1000 left as zeros |
| DotWave.Encode | DotWave/DotWave.cs:227-268 | the corrected writer: every frame encoded, rounding to the nearest value |
| DotWave.Reread | DotWave/DotWave.cs:190-268 | the grid read back from a written wave has the same shape; frames before the first written read as silence, the others as their encoding decoded |
| DotWave.WrittenWaveReadable | DotWave/DotWave.cs:166-196 | a written wave with 1 to 65535 channels passes IsWave and is readable; reading gives back the channel count (offset 22), rate (24), depth (34) and frame count |
| DotWave.ReadBack | DotWave/DotWave.cs:190-268 | GetWaves of a written wave yields Reread of the grid |
| DotWave.LeadingFramesSilent | DotWave/DotWave.cs:245 | whatever the grid holds, the first 1000 frames of SetWaves' output read back as silence |
| DotWave.ReadWriteRead | DotWave/DotWave.cs:190-268 | at 8, 16 and 24 bits, reading a file, encoding it and reading again gives the same grid |
| Worker.Reversed | DotWave/DotWave.cs:782-790 | the reversal keeps the length and puts sample i at position len - 1 - i |
| Worker.ReversedInvolutive | DotWave/DotWave.cs:782-790 | reversing twice gives the channel back |
| Worker.MergeToAudio | DotWave/DotWave.cs:285-296 | the result is the grid whose column ch is channel ch, cut to the length of the first channel |
| Worker.SplitAudio | DotWave/DotWave.cs:304-317 | the result is the columns of the grid, in order |
| Worker.GetChannel | DotWave/DotWave.cs:328-336 | the result is column num, with one sample per frame |
| Worker.AddChannel | DotWave/DotWave.cs:345-352 | as written, the result is the input grid |
| Worker.AppendChannel | DotWave/DotWave.cs:345-352 | the corrected AddChannel: the channel becomes the last column, and the frame count is that of the first column |
| Worker.RemoveChannel | DotWave/DotWave.cs:361-372 | for num below the last column, each row loses exactly its sample num |
| Worker.RemoveChannelOverruns | DotWave/DotWave.cs:366-370 | when num is the last column or no column, the last write goes to slot width - 1, one past the end |
| Worker.DropChannel | DotWave/DotWave.cs:361-372 | the corrected RemoveChannel: any column of a grid of at least two can be dropped, and each row loses exactly that sample |
| Worker.InsertChannel | DotWave/DotWave.cs:411-429 | the channel goes to column num and later columns shift right; the frame count is that of the new column 0 |
| Worker.GetSub | DotWave/DotWave.cs:441-449 | the result is c[start .. start + length] |
| Worker.JoinChannels | DotWave/DotWave.cs:457-475 | the result is the concatenation, and its length is the sum of the lengths |
| Worker.DeleteSub | DotWave/DotWave.cs:485-490 | the result is c[..start] + c[(start + length) mod 2^32 ..]; without wrap-around it is c[..start] + c[start + length ..], of length abs(c) - length |
| Worker.InsertSub | DotWave/DotWave.cs:500-505 | the result is c[..pos] + sub + c[pos..] |
| Worker.DeleteUndoesInsert | DotWave/DotWave.cs:485-505 | deleting abs(sub) samples at pos after inserting sub at pos gives the channel back |
| Worker.RewriteSub | DotWave/DotWave.cs:515-530 | the length is kept; positions in [start, start + abs(sub)) take sub's samples; every other position is unchanged; the tail of sub beyond the end is dropped |
| Worker.Reverse | DotWave/DotWave.cs:782-790 | the result is the reversed channel |
| Worker.Merge | DotWave/DotWave.cs:694-702 | the result has the length of ch1; sample i is MergeSample(ch1[i], ch2[i]) = ((ch1[i] + ch2[i]) mod 2^32) / 2, and it equals the mean exactly when the sum does not wrap |
| Worker.MergeSampleIsMean | DotWave/DotWave.cs:699 | for all samples x and y, the mix as written equals the mean (x + y) / 2 if and only if x + y < 2^32; otherwise it lies 2^31 below the mean |
| Worker.MergeWrapExample | DotWave/DotWave.cs:699 | MergeSample(0xFFFFFFFF, 1) is 0, not the mean 0x80000000 |
| Worker.Mix | DotWave/DotWave.cs:694-702 | the corrected Merge: each sample is the exact mean and lies between the two inputs |
| GridWorker.GetSub | DotWave/DotWave.cs:542-550 | the result is frames start .. start + length of the grid, at the same width |
| GridWorker.JoinAudios | DotWave/DotWave.cs:558-580 | the result is the grids' frames one after the other, cut to the first grid's width; the frame count is the sum |
| GridWorker.StackedPair | DotWave/DotWave.cs:558-580 | stacking two grids of the same width concatenates their frames |
| GridWorker.DeleteSub | DotWave/DotWave.cs:590-598 | the result is the frames before start followed by those from (start + length) mod 2^32 on |
| GridWorker.InsertSub | DotWave/DotWave.cs:608-617 | the frames of sub, cut to the grid's width, are spliced in at pos |
| GridWorker.RewriteSub | DotWave/DotWave.cs:627-636 | the shape is kept; frames in [start, start + abs(sub)) take sub's frames (cut to the width); the others are unchanged |
| GridWorker.Merge | DotWave/DotWave.cs:855-864 | each sample is MergeSample of the two grids' samples, which equals their mean exactly when the sum does not wrap |
| GridWorker.Reverse | DotWave/DotWave.cs:936-944 | the result is the grid's frames in reverse order |
| GridWorker.ReverseInvolutive | DotWave/DotWave.cs:936-944 | reversing a grid twice gives it back |

## Left out

- `DotWaveInfo.GetDuration`: single-precision float division.
- `SetVolume`, `LinearSoundUp/Down`, `ParabolicSoundUp/Down`, at channel and grid level: float arithmetic and `Math.Sin`.
- `SetLength` and `SetSpeed`, at channel and grid level: their resample index is computed in `float`.
- `GenerateBeep`, `GenerateNoise`, `GenerateInterference`, `Make8Bit`: float and trigonometric synthesis, and unseeded `System.Random`.
- `ReplaceChannel`: it compares the frame index with the channel number and advances its column counter inside the frame loop, so there is no coherent behaviour to state about it.
- `DotWaveAnalyzer`: a peripheral add-on built on unsigned-subtraction comparisons and float slopes.
- DotWave.Upscale: the source computes the widening in `double` through `Math.Pow`. The model uses the exact integer `raw * (2^32 - 1) / 256^n`, truncated. It agrees with the `double` result at every depth: the exact quotient is raw * 256^(4-n) minus a fraction raw / 256^n, and that fraction is far larger than the rounding error of the product, so truncation lands on raw * 256^(4-n) - 1 in both.
- DotWave.EncodeSample: the `double` narrowing `v / (2^32 - 1) * 256^n` is modelled as the exact integer `v * 256^n / (2^32 - 1)`. The two agree at 8 and 16 bits. At 24 and 32 bits the model is an idealisation: the `double` quotient can round up to the next integer (stored 0xFFFFFF read and written back at 24 bits stays 0xFFFFFF in the source).
- DotWave.DownscaleAfterUpscale: stated for 8 and 16 bits only. At 24 and 32 bits the exact-integer narrowing would also give raw - 1, but the source's `double` narrowing does not always, so no claim is made there.
- DotWave.TruncatedWriteAfterRead: stated for 16 bits only, for the same reason; the 8-bit case is `TruncatedByteWriteAfterRead`, and no drift is claimed at 24 and 32 bits.
- DotWave.GetWaves: reading the file and the aliasing of the grid shared between copies of `DotWaveInfo` are not modelled. The grid is a value, and `Copy` shares it by value.
- DotWave.GetWaves, DotWave.SetWaves: inputs on which the source throws are excluded by preconditions (`Readable`, `Writable`), rather than modelled as an error result. These are a missing header, a zero channel count or depth below 8 bits (a division by zero), a sample wider than the 4-byte buffer, and an output longer than a .NET array.
- DotWave.SetWaves: `Writable` also excludes every depth of 40 bits or more, although the source throws there only when it reaches a sample: its sample loop starts at frame 1000, so for a grid of at most 1000 frames, or with no channels, it returns the header followed by zero bytes. These depths lie outside the 8/16/24/32 bits the `BitsPerSample` property documents.
- WaveInfo.DeriveExact: states the format's relations only where the UInt16/UInt32 casts do not wrap. The invariant `Valid()` itself keeps the wrapping casts.
- Worker.JoinChannels, GridWorker.JoinAudios: require the UInt32 length counter not to wrap. With wrap-around the source writes past its new array and throws.
- Worker.RemoveChannel: modelled only for `num` below the last column. For the other inputs the source throws; `RemoveChannelOverruns` shows why.
- Worker.AddChannel: requires at least one column. With none, the source's merge reads a channel that does not exist and throws.

## Findings

| source | as written | input that shows it | evidently intended | confidence | as-written member | corrected member |
|---|---|---|---|---|---|---|
| DotWave/DotWave.cs:245 | the sample loop of SetWaves starts at block 1000, so the first 1000 frames stay zero bytes | any grid with at least one frame whose first sample is not silence | every frame is encoded, from block 0 | high, not executed | DotWave.SetWaves, DotWave.LeadingFramesSilent | DotWave.Encode, DotWave.ReadWriteRead |
| DotWave/DotWave.cs:213, 249 | widening and narrowing both truncate, so writing back a sample that was read changes it: at 16 bits every non-zero stored value is written back one lower; at 8 bits the toggled value drops by one | a 16-bit sample stored as bytes [1, 0] reads as 65535 and is written back as [0, 0]; an 8-bit sample stored as 0 is written back as 253 | reading and writing a file gives back the same samples | medium, not executed | DotWave.TruncatedWriteAfterRead, DotWave.TruncatedByteWriteAfterRead, DotWave.SixteenBitDrift | DotWave.RoundedWriteAfterRead, DotWave.Encode |
| DotWave/DotWave.cs:176-178 | the audio-format check re-tests subchunk1Size, so the audio format is never validated | a valid header with audio format 3 (IEEE float) at offset 20 passes | reject a header whose audio format is not 1 (PCM) | high, not executed | DotWave.IsWave, DotWave.IsWaveIgnoresAudioFormat, DotWave.AudioFormatUnchecked | DotWave.IsPcmWave |
| DotWave/DotWave.cs:351 | AddChannel merges the old channel list instead of the extended one | any grid with at least one column and any channel: the result is the input | the channel is appended as the last column | high, not executed | Worker.AddChannel | Worker.AppendChannel |
| DotWave/DotWave.cs:366-370 | RemoveChannel writes its counter's slot on every iteration, so the last iteration writes one past the end when num is the last column | a grid of 2 columns with num = 1 | any existing column can be removed | high, not executed | Worker.RemoveChannelOverruns | Worker.DropChannel |
| DotWave/DotWave.cs:699 | the UInt32 sum of the two samples wraps before it is halved | samples 0xFFFFFFFF and 1 mix to 0 | the mean of the two samples, 0x80000000 | high, not executed | Worker.Merge, Worker.MergeSampleIsMean, Worker.MergeWrapExample | Worker.Mix |
