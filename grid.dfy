/** The sample grid of DotWave: a UInt32[frames, channels] buffer, here a
    sequence of frames together with its channel count (a buffer with no
    frames still has a channel count, as UInt32[0, n] does). */
module Grid {
  import opened Bytes

  /** The largest length a .NET array can have (Int32.MaxValue). */
  const MaxLength: nat := 0x7FFF_FFFF

  /** One channel: one canonical amplitude per frame. */
  type Channel = seq<U32>

  datatype Audio = Audio(width: nat, frames: seq<seq<U32>>)
  {
    /** Every frame holds one sample per channel. */
    predicate Rect()
    {
      forall b :: 0 <= b < |frames| ==> |frames[b]| == width
    }
  }

  /** Column ch of a grid, frame by frame. */
  function Column(a: Audio, ch: nat): (c: Channel)
    requires a.Rect() && ch < a.width
    ensures |c| == |a.frames|
    ensures forall b :: 0 <= b < |c| ==> c[b] == a.frames[b][ch]
  {
    seq(|a.frames|, b requires 0 <= b < |a.frames| => a.frames[b][ch])
  }

  /** All columns of a grid, in channel order. */
  function Columns(a: Audio): (cs: seq<Channel>)
    requires a.Rect()
    ensures |cs| == a.width
    ensures forall ch :: 0 <= ch < |cs| ==> cs[ch] == Column(a, ch)
  {
    seq(a.width, ch requires 0 <= ch < a.width => Column(a, ch))
  }

  /** What MergeToAudio needs of its channels: there is a first channel, and
      no channel is shorter than it (its length is the frame count). */
  predicate Mergeable(chs: seq<Channel>)
  {
    |chs| >= 1 && forall k :: 0 <= k < |chs| ==> |chs[k]| >= |chs[0]|
  }

  /** The grid whose column ch is chs[ch], cut to the length of chs[0]. */
  function FromColumns(chs: seq<Channel>): (a: Audio)
    requires Mergeable(chs)
    ensures a.Rect() && a.width == |chs| && |a.frames| == |chs[0]|
    ensures forall b, ch :: 0 <= b < |a.frames| && 0 <= ch < |chs| ==> a.frames[b][ch] == chs[ch][b]
  {
    Audio(|chs|, seq(|chs[0]|, b requires 0 <= b < |chs[0]| =>
                                 seq(|chs|, ch requires 0 <= ch < |chs| => chs[ch][b])))
  }

  /** Two grids of the same shape that agree sample by sample are equal. */
  lemma SameSamples(x: Audio, y: Audio)
    requires x.Rect() && y.Rect() && x.width == y.width && |x.frames| == |y.frames|
    requires forall b, ch :: 0 <= b < |x.frames| && 0 <= ch < x.width ==> x.frames[b][ch] == y.frames[b][ch]
    ensures x == y
  {
    forall b | 0 <= b < |x.frames| ensures x.frames[b] == y.frames[b] {
      assert |x.frames[b]| == |y.frames[b]|;
    }
  }

  /** Merging the columns of a grid that has at least one channel gives the grid back. */
  lemma MergeColumns(a: Audio)
    requires a.Rect() && a.width >= 1
    ensures Mergeable(Columns(a)) && FromColumns(Columns(a)) == a
  {
    var cs := Columns(a);
    assert Mergeable(cs);
    SameSamples(FromColumns(cs), a);
  }

  /** Splitting a grid merged from equal-length channels gives the channels back. */
  lemma ColumnsOfMerge(chs: seq<Channel>)
    requires Mergeable(chs)
    requires forall k :: 0 <= k < |chs| ==> |chs[k]| == |chs[0]|
    ensures Columns(FromColumns(chs)) == chs
  {
    var a := FromColumns(chs);
    forall ch | 0 <= ch < |chs| ensures Columns(a)[ch] == chs[ch] {
      assert |Column(a, ch)| == |chs[ch]|;
    }
  }

  /** The grid held in a two-dimensional UInt32 array. */
  function ToAudio(arr: array2<U32>): (a: Audio)
    reads arr
    ensures a.Rect() && a.width == arr.Length1 && |a.frames| == arr.Length0
    ensures forall b, ch :: 0 <= b < arr.Length0 && 0 <= ch < arr.Length1 ==> a.frames[b][ch] == arr[b, ch]
  {
    Audio(arr.Length1, seq(arr.Length0, b requires 0 <= b < arr.Length0 reads arr =>
                             seq(arr.Length1, ch requires 0 <= ch < arr.Length1 reads arr => arr[b, ch])))
  }
}
