/** DotWaveWorker, channel level: splitting a grid into channels and merging
    them back, column edits, and the edits of one channel (sub-ranges,
    concatenation, reversal, mixing). Every operation fills fresh arrays
    and leaves its inputs alone. */
module Worker {
  import opened Bytes
  import opened Grid

  // ---------------------------------------------------------------------
  // Specification functions

  /** Total number of samples in a list of channels. */
  function TotalLength(chs: seq<Channel>): nat
  {
    if chs == [] then 0 else TotalLength(chs[..|chs| - 1]) + |chs[|chs| - 1]|
  }

  /** The channels one after the other. */
  function Concat(chs: seq<Channel>): (r: Channel)
    ensures |r| == TotalLength(chs)
  {
    if chs == [] then [] else Concat(chs[..|chs| - 1]) + chs[|chs| - 1]
  }

  /** A channel (or the frames of a grid) played backwards. */
  function Reversed<T>(c: seq<T>): (r: seq<T>)
    ensures |r| == |c|
    ensures forall i :: 0 <= i < |c| ==> r[i] == c[|c| - 1 - i]
  {
    if c == [] then [] else Reversed(c[1..]) + [c[0]]
  }

  /** Number of indices j < i other than num: the value of RemoveChannel's
      write counter before iteration i. */
  function Kept(i: nat, num: int): (k: nat)
    ensures k == if 0 <= num < i then i - 1 else i
  {
    if i == 0 then 0 else Kept(i - 1, num) + (if i - 1 != num then 1 else 0)
  }

  /** Concatenating two or three channels. */
  lemma Concat2(x: Channel, y: Channel)
    ensures Concat([x, y]) == x + y
  {
    assert [x, y][..1] == [x];
    assert [x][..0] == [];
  }

  lemma Concat3(x: Channel, y: Channel, z: Channel)
    ensures Concat([x, y, z]) == x + y + z
  {
    assert [x, y, z][..2] == [x, y];
    Concat2(x, y);
  }

  /** Reversing twice gives the channel (or the frames) back. */
  lemma ReversedInvolutive<T>(c: seq<T>)
    ensures Reversed(Reversed(c)) == c
  {
    var r := Reversed(Reversed(c));
    assert forall i :: 0 <= i < |c| ==> r[i] == c[i];
  }

  // ---------------------------------------------------------------------
  // Channels and grids

  /** MergeToAudio: the frame count is taken from the first channel. */
  method MergeToAudio(chs: seq<Channel>) returns (a: Audio)
    requires Mergeable(chs)
    ensures a == FromColumns(chs)
  {
    var rows := |chs[0]|;
    var audio := new U32[rows, |chs|];
    for ch := 0 to |chs|
      invariant forall b, c :: 0 <= b < rows && 0 <= c < ch ==> audio[b, c] == chs[c][b]
    {
      for i := 0 to rows
        invariant forall b, c :: 0 <= b < rows && 0 <= c < ch ==> audio[b, c] == chs[c][b]
        invariant forall b :: 0 <= b < i ==> audio[b, ch] == chs[ch][b]
      {
        audio[i, ch] := chs[ch][i];
      }
    }
    a := ToAudio(audio);
    SameSamples(a, FromColumns(chs));
  }

  /** SplitAudio: one channel per column. */
  method SplitAudio(a: Audio) returns (chs: seq<Channel>)
    requires a.Rect()
    ensures chs == Columns(a)
  {
    var channels := new Channel[a.width];
    for ch := 0 to a.width
      invariant forall k :: 0 <= k < ch ==> channels[k] == Column(a, k)
    {
      var channel := new U32[|a.frames|];
      for i := 0 to channel.Length
        modifies channel
        invariant forall b :: 0 <= b < i ==> channel[b] == a.frames[b][ch]
      {
        channel[i] := a.frames[i][ch];
      }
      assert channel[..] == Column(a, ch);
      channels[ch] := channel[..];
    }
    chs := channels[..];
  }

  /** GetChannel: column num; with no frames nothing is read and any num is accepted. */
  method GetChannel(a: Audio, num: int) returns (c: Channel)
    requires a.Rect() && (|a.frames| == 0 || 0 <= num < a.width)
    ensures |c| == |a.frames|
    ensures forall b :: 0 <= b < |c| ==> c[b] == a.frames[b][num]
    ensures 0 <= num < a.width ==> c == Column(a, num)
  {
    var ch := new U32[|a.frames|];
    for i := 0 to ch.Length
      invariant forall b :: 0 <= b < i ==> ch[b] == a.frames[b][num]
    {
      ch[i] := a.frames[i][num];
    }
    c := ch[..];
  }

  /** AddChannel as written: the new channel is placed in a longer list, but
      the original list is merged, so the result is the input grid. */
  method AddChannel(a: Audio, channel: Channel) returns (r: Audio)
    requires a.Rect() && a.width >= 1
    ensures r == a
  {
    var channels := SplitAudio(a);
    var nchannels := channels + [channel];
    r := MergeToAudio(channels);
    MergeColumns(a);
  }

  /** AddChannel as intended: the channel becomes the last column; the frame
      count is that of the first column (of the new channel if there is no other). */
  method AppendChannel(a: Audio, channel: Channel) returns (r: Audio)
    requires a.Rect() && (a.width == 0 || |channel| >= |a.frames|)
    ensures r.Rect() && r.width == a.width + 1
    ensures a.width >= 1 ==> (|r.frames| == |a.frames| &&
      forall b :: 0 <= b < |a.frames| ==> r.frames[b] == a.frames[b] + [channel[b]])
    ensures a.width == 0 ==> (|r.frames| == |channel| &&
      forall b :: 0 <= b < |channel| ==> r.frames[b] == [channel[b]])
  {
    var channels := SplitAudio(a);
    var nchannels := channels + [channel];
    r := MergeToAudio(nchannels);
    forall b | 0 <= b < |r.frames|
      ensures r.frames[b] == (if a.width == 0 then [] else a.frames[b]) + [channel[b]]
    {
      assert forall k :: 0 <= k < a.width ==> r.frames[b][k] == a.frames[b][k];
    }
  }

  /** RemoveChannel as written. The write counter ch stays put at i == num, so
      column num is overwritten by the next one; but the last iteration writes
      slot Kept(width - 1, num), which exists only when num < width - 1. */
  method RemoveChannel(a: Audio, num: int) returns (r: Audio)
    requires a.Rect() && 0 <= num < a.width - 1
    ensures r.Rect() && r.width == a.width - 1 && |r.frames| == |a.frames|
    ensures forall b :: 0 <= b < |a.frames| ==> r.frames[b] == a.frames[b][..num] + a.frames[b][num + 1..]
  {
    var channels := SplitAudio(a);
    var nchannels := new Channel[|channels| - 1];
    var ch := 0;
    for i := 0 to a.width
      invariant ch == Kept(i, num)
      invariant forall k :: 0 <= k < ch ==> nchannels[k] == channels[if k < num then k else k + 1]
    {
      nchannels[ch] := channels[i];
      if i != num {
        ch := ch + 1;
      }
    }
    r := MergeToAudio(nchannels[..]);
    RemovedRows(a, r, num);
  }

  /** RemoveChannel as intended: any of at least two columns can be dropped. */
  method DropChannel(a: Audio, num: int) returns (r: Audio)
    requires a.Rect() && a.width >= 2 && 0 <= num < a.width
    ensures r.Rect() && r.width == a.width - 1 && |r.frames| == |a.frames|
    ensures forall b :: 0 <= b < |a.frames| ==> r.frames[b] == a.frames[b][..num] + a.frames[b][num + 1..]
  {
    var channels := SplitAudio(a);
    var nchannels := new Channel[|channels| - 1];
    var ch := 0;
    for i := 0 to a.width
      invariant ch == Kept(i, num)
      invariant forall k :: 0 <= k < ch ==> nchannels[k] == channels[if k < num then k else k + 1]
    {
      if i != num {
        nchannels[ch] := channels[i];
        ch := ch + 1;
      }
    }
    r := MergeToAudio(nchannels[..]);
    RemovedRows(a, r, num);
  }

  /** The rows of a grid whose column k is column k (k < num) or k + 1 (k >= num) of a. */
  lemma RemovedRows(a: Audio, r: Audio, num: int)
    requires a.Rect() && r.Rect() && 0 <= num < a.width && r.width == a.width - 1
    requires |r.frames| == |a.frames|
    requires forall b, k :: 0 <= b < |a.frames| && 0 <= k < r.width ==>
      r.frames[b][k] == a.frames[b][if k < num then k else k + 1]
    ensures forall b :: 0 <= b < |a.frames| ==> r.frames[b] == a.frames[b][..num] + a.frames[b][num + 1..]
  {
    forall b | 0 <= b < |a.frames| ensures r.frames[b] == a.frames[b][..num] + a.frames[b][num + 1..] {
      var row := a.frames[b][..num] + a.frames[b][num + 1..];
      assert forall k :: 0 <= k < r.width ==> r.frames[b][k] == row[k];
    }
  }

  /** The last iteration of RemoveChannel writes past the end of its
      width - 1 slots whenever num is the last column or no column at all. */
  lemma RemoveChannelOverruns(width: nat, num: int)
    requires width >= 1 && !(0 <= num < width - 1)
    ensures Kept(width - 1, num) == width - 1
  {
  }

  /** InsertChannel: the new channel goes to column num and later columns
      shift right. The frame count is that of column 0 of the new list. */
  method InsertChannel(a: Audio, num: int, channel: Channel) returns (r: Audio)
    requires a.Rect() && 0 <= num <= a.width
    requires if num == 0 then a.width == 0 || |a.frames| >= |channel| else |channel| >= |a.frames|
    ensures r.Rect() && r.width == a.width + 1
    ensures a.width == 0 ==> r == Audio(1, seq(|channel|, b requires 0 <= b < |channel| => [channel[b]]))
    ensures a.width >= 1 ==>
      var n := if num == 0 then |channel| else |a.frames|;
      |r.frames| == n &&
      forall b :: 0 <= b < n ==> r.frames[b] == a.frames[b][..num] + [channel[b]] + a.frames[b][num..]
  {
    var channels := SplitAudio(a);
    var nchannels := new Channel[|channels| + 1];
    var ch := 0;
    for i := 0 to nchannels.Length
      invariant ch == if num < i then i - 1 else i
      invariant forall k :: 0 <= k < i && k < num ==> nchannels[k] == channels[k]
      invariant forall k :: 0 <= k < i && k > num ==> nchannels[k] == channels[k - 1]
      invariant num < i ==> nchannels[num] == channel
    {
      if i != num {
        nchannels[i] := channels[ch];
        ch := ch + 1;
      } else {
        nchannels[i] := channel;
      }
    }
    assert nchannels[..][0] == if num == 0 then channel else channels[0];
    r := MergeToAudio(nchannels[..]);
    if a.width == 0 {
      assert nchannels[..] == [channel];
      SameSamples(r, Audio(1, seq(|channel|, b requires 0 <= b < |channel| => [channel[b]])));
    } else {
      forall b | 0 <= b < |r.frames|
        ensures r.frames[b] == a.frames[b][..num] + [channel[b]] + a.frames[b][num..]
      {
        var row := a.frames[b][..num] + [channel[b]] + a.frames[b][num..];
        assert forall k :: 0 <= k < r.width ==> r.frames[b][k] == row[k];
      }
    }
  }

  // ---------------------------------------------------------------------
  // Sub-ranges of one channel

  /** GetSub: length samples from start (nothing is read when length is 0). */
  method GetSub(c: Channel, start: U32, length: U32) returns (r: Channel)
    requires length == 0 || start + length <= |c|
    ensures |r| == length
    ensures forall i :: 0 <= i < length ==> r[i] == c[start + i]
    ensures start + length <= |c| ==> r == c[start..start + length]
  {
    var subchannel := new U32[length];
    for i := 0 to length
      invariant forall k :: 0 <= k < i ==> subchannel[k] == c[start + k]
    {
      subchannel[i] := c[i + start];
    }
    r := subchannel[..];
  }

  /** JoinChannels: the channels one after the other. The UInt32 length
      counter must not wrap, or the writes run past the new array. */
  method JoinChannels(chs: seq<Channel>) returns (r: Channel)
    requires TotalLength(chs) < Two32
    ensures r == Concat(chs)
    ensures |r| == TotalLength(chs)
  {
    var length := 0;
    for ch := 0 to |chs|
      invariant length == TotalLength(chs[..ch])
    {
      assert chs[..ch + 1][..ch] == chs[..ch];
      length := length + |chs[ch]|;
    }
    assert chs[..|chs|] == chs;
    var nchannel := new U32[length];
    var pos := 0;
    for ch := 0 to |chs|
      invariant pos == TotalLength(chs[..ch])
      invariant TotalLength(chs[..ch]) <= length
      invariant nchannel[..pos] == Concat(chs[..ch])
    {
      assert chs[..ch + 1][..ch] == chs[..ch];
      PrefixTotal(chs, ch + 1);
      for i := 0 to |chs[ch]|
        invariant pos == TotalLength(chs[..ch]) + i
        invariant nchannel[..pos] == Concat(chs[..ch]) + chs[ch][..i]
      {
        nchannel[pos] := chs[ch][i];
        pos := pos + 1;
        assert chs[ch][..i + 1] == chs[ch][..i] + [chs[ch][i]];
      }
      assert chs[ch][..|chs[ch]|] == chs[ch];
    }
    r := nchannel[..];
  }

  /** A prefix of a list of channels has no more samples than the list. */
  lemma {:induction false} PrefixTotal(chs: seq<Channel>, k: nat)
    requires k <= |chs|
    ensures TotalLength(chs[..k]) <= TotalLength(chs)
  {
    if k < |chs| {
      var init := chs[..|chs| - 1];
      assert init[..k] == chs[..k];
      PrefixTotal(init, k);
    } else {
      assert chs[..k] == chs;
    }
  }

  /** DeleteSub: what lies before start followed by what lies from start + length
      on; start + length is a UInt32 sum and wraps. */
  method DeleteSub(c: Channel, start: U32, length: U32) returns (r: Channel)
    requires |c| <= MaxLength
    requires start <= |c| && (start + length) % Two32 <= |c|
    ensures r == c[..start] + c[(start + length) % Two32..]
    ensures start + length <= |c| ==> r == c[..start] + c[start + length..] && |r| == |c| - length
  {
    var chPre := GetSub(c, 0, start);
    var e := (start + length) % Two32;
    var chPost := GetSub(c, e, (|c| - start - length) % Two32);
    Concat2(chPre, chPost);
    r := JoinChannels([chPre, chPost]);
  }

  /** InsertSub: the sub-channel spliced in at pos. */
  method InsertSub(c: Channel, sub: Channel, pos: U32) returns (r: Channel)
    requires |c| <= MaxLength && |sub| <= MaxLength
    requires pos <= |c|
    ensures r == c[..pos] + sub + c[pos..]
    ensures |r| == |c| + |sub|
  {
    var chPre := GetSub(c, 0, pos);
    var chPost := GetSub(c, pos, |c| - pos);
    Concat3(chPre, sub, chPost);
    r := JoinChannels([chPre, sub, chPost]);
  }

  /** Deleting what was just inserted restores the channel. */
  lemma DeleteUndoesInsert(c: Channel, sub: Channel, pos: nat)
    requires pos <= |c|
    ensures var ins := c[..pos] + sub + c[pos..];
            ins[..pos] + ins[pos + |sub|..] == c
  {
    var ins := c[..pos] + sub + c[pos..];
    assert ins[..pos] == c[..pos];
    assert ins[pos + |sub|..] == c[pos..];
  }

  /** RewriteSub: positions start .. start + |sub| - 1 that exist take sub's
      samples, every other position keeps its own; the length is unchanged. */
  method RewriteSub(c: Channel, sub: Channel, start: U32) returns (r: Channel)
    ensures |r| == |c|
    ensures forall i :: 0 <= i < |c| && start <= i < start + |sub| ==> r[i] == sub[i - start]
    ensures forall i :: 0 <= i < |c| && !(start <= i < start + |sub|) ==> r[i] == c[i]
    ensures start + |sub| <= |c| ==> r == c[..start] + sub + c[start + |sub|..]
  {
    var nchannel := new U32[|c|];
    for i := 0 to |c|
      invariant forall k :: 0 <= k < i ==>
        nchannel[k] == if k < start || k >= start + |sub| then c[k] else sub[k - start]
    {
      if i < start || i >= start + |sub| {
        nchannel[i] := c[i];
      } else {
        nchannel[i] := sub[i - start];
      }
    }
    r := nchannel[..];
    if start + |sub| <= |c| {
      var spliced := c[..start] + sub + c[start + |sub|..];
      assert forall k :: 0 <= k < |c| ==> r[k] == spliced[k];
    }
  }

  // ---------------------------------------------------------------------
  // Signal operations without floating point

  /** Reverse: sample i of the result is sample |c| - 1 - i of the input. */
  method Reverse(c: Channel) returns (r: Channel)
    ensures r == Reversed(c)
  {
    var nchannel := new U32[|c|];
    for i := 0 to |c|
      invariant forall k :: 0 <= k < i ==> nchannel[k] == c[|c| - k - 1]
    {
      nchannel[i] := c[|c| - i - 1];
    }
    r := nchannel[..];
  }

  /** One sample of Merge as written: the UInt32 sum wraps before it is halved. */
  function MergeSample(x: U32, y: U32): U32
  {
    ((x as int + y as int) % Two32) / 2
  }

  /** The mix as written is the mean of the two samples exactly when their
      sum does not wrap; when it wraps, the result lies 2^31 below the mean. */
  lemma MergeSampleIsMean(x: U32, y: U32)
    ensures MergeSample(x, y) == (x as int + y as int) / 2 <==> x as int + y as int < Two32
    ensures x as int + y as int >= Two32 ==> MergeSample(x, y) == (x as int + y as int) / 2 - Two32 / 2
  {
    var sum := x as int + y as int;
    if sum < Two32 {
      assert sum % Two32 == sum;
    } else {
      DivModUnique(sum, Two32, 1, sum - Two32);
      assert (sum - Two32) / 2 == sum / 2 - Two32 / 2;
    }
  }

  /** Merge as written: each sample is MergeSample of the two inputs, which is
      their mean unless the sum wraps. */
  method Merge(ch1: Channel, ch2: Channel) returns (r: Channel)
    requires |ch2| >= |ch1|
    ensures |r| == |ch1|
    ensures forall i :: 0 <= i < |ch1| ==> r[i] == MergeSample(ch1[i], ch2[i])
    ensures forall i :: 0 <= i < |ch1| ==>
      (r[i] == (ch1[i] as int + ch2[i] as int) / 2 <==> ch1[i] as int + ch2[i] as int < Two32)
  {
    var nch := new U32[|ch1|];
    for i := 0 to nch.Length
      invariant forall k :: 0 <= k < i ==> nch[k] == MergeSample(ch1[k], ch2[k])
    {
      nch[i] := ((ch1[i] + ch2[i]) % Two32) / 2;
    }
    r := nch[..];
    forall i | 0 <= i < |ch1|
      ensures r[i] == (ch1[i] as int + ch2[i] as int) / 2 <==> ch1[i] as int + ch2[i] as int < Two32
    {
      MergeSampleIsMean(ch1[i], ch2[i]);
    }
  }

  /** Two loud samples mix to a quiet one: 0xFFFFFFFF and 1 give 0, not their
      mean 0x80000000. */
  lemma MergeWrapExample()
    ensures MergeSample(0xFFFF_FFFF, 1) == 0
    ensures MergeSample(0xFFFF_FFFF, 1) != (0xFFFF_FFFF as int + 1) / 2
  {
    MergeSampleIsMean(0xFFFF_FFFF, 1);
  }

  /** Merge as intended: the exact mean, which lies between the two samples. */
  method Mix(ch1: Channel, ch2: Channel) returns (r: Channel)
    requires |ch2| >= |ch1|
    ensures |r| == |ch1|
    ensures forall i :: 0 <= i < |ch1| ==> r[i] == (ch1[i] as int + ch2[i] as int) / 2
    ensures forall i :: 0 <= i < |ch1| ==>
      (r[i] >= ch1[i] || r[i] >= ch2[i]) && (r[i] <= ch1[i] || r[i] <= ch2[i])
  {
    var nch := new U32[|ch1|];
    for i := 0 to nch.Length
      invariant forall k :: 0 <= k < i ==> nch[k] == (ch1[k] as int + ch2[k] as int) / 2
    {
      nch[i] := (ch1[i] as int + ch2[i] as int) / 2;
    }
    r := nch[..];
  }
}
