/** DotWaveWorker, grid level: each edit splits the grid into channels,
    applies the channel edit to every channel with the same arguments and
    merges the channels back; JoinAudios stacks grids frame after frame. */
module GridWorker {
  import opened Bytes
  import opened Grid
  import W = Worker

  // ---------------------------------------------------------------------
  // Specification functions for JoinAudios

  /** Number of frames of a list of grids. */
  function FrameTotal(audios: seq<Audio>): nat
  {
    if audios == [] then 0 else FrameTotal(audios[..|audios| - 1]) + |audios[|audios| - 1].frames|
  }

  /** Every grid is rectangular and, where it has frames, at least w channels wide. */
  predicate WideEnough(audios: seq<Audio>, w: nat)
  {
    forall au :: 0 <= au < |audios| ==>
      audios[au].Rect() && (|audios[au].frames| == 0 || audios[au].width >= w)
  }

  /** The frames of a grid cut to their first w channels. */
  function Cut(a: Audio, w: nat): (fs: seq<seq<U32>>)
    requires a.Rect() && (|a.frames| == 0 || a.width >= w)
    ensures |fs| == |a.frames|
    ensures forall b :: 0 <= b < |fs| ==> fs[b] == a.frames[b][..w]
  {
    seq(|a.frames|, b requires 0 <= b < |a.frames| => a.frames[b][..w])
  }

  /** The frames of all grids, one grid after the other, cut to w channels. */
  function Stacked(audios: seq<Audio>, w: nat): (fs: seq<seq<U32>>)
    requires WideEnough(audios, w)
    ensures |fs| == FrameTotal(audios)
    ensures forall b :: 0 <= b < |fs| ==> |fs[b]| == w
  {
    if audios == [] then []
    else Stacked(audios[..|audios| - 1], w) + Cut(audios[|audios| - 1], w)
  }

  /** The frames of the first k grids come first among the frames of all grids. */
  lemma {:induction false} StackedPrefix(audios: seq<Audio>, w: nat, k: nat)
    requires WideEnough(audios, w) && k <= |audios|
    ensures FrameTotal(audios[..k]) <= FrameTotal(audios)
    ensures Stacked(audios, w)[..FrameTotal(audios[..k])] == Stacked(audios[..k], w)
  {
    if k == |audios| {
      assert audios[..k] == audios;
    } else {
      var init := audios[..|audios| - 1];
      assert init[..k] == audios[..k];
      StackedPrefix(init, w, k);
    }
  }

  /** Frame i of grid au sits at position FrameTotal(audios[..au]) + i of the stack. */
  lemma StackedAt(audios: seq<Audio>, w: nat, au: nat, i: nat)
    requires WideEnough(audios, w) && au < |audios| && i < |audios[au].frames|
    ensures FrameTotal(audios[..au]) + i < FrameTotal(audios)
    ensures Stacked(audios, w)[FrameTotal(audios[..au]) + i] == audios[au].frames[i][..w]
  {
    StackedPrefix(audios, w, au + 1);
    var upto := audios[..au + 1];
    assert upto[..au] == audios[..au];
    assert Stacked(upto, w) == Stacked(audios[..au], w) + Cut(audios[au], w);
  }

  /** Cutting a grid to its own width changes nothing. */
  lemma CutFull(a: Audio)
    requires a.Rect()
    ensures Cut(a, a.width) == a.frames
  {
    forall b | 0 <= b < |a.frames| ensures a.frames[b][..a.width] == a.frames[b] {
      assert |a.frames[b]| == a.width;
    }
  }

  /** Stacking two grids of the same width is concatenating their frames. */
  lemma StackedPair(x: Audio, y: Audio)
    requires x.Rect() && y.Rect() && x.width == y.width
    ensures Stacked([x, y], x.width) == x.frames + y.frames
  {
    assert [x, y][..1] == [x];
    assert [x][..0] == [];
    CutFull(x);
    CutFull(y);
  }

  // ---------------------------------------------------------------------
  // Grid edits

  /** GetSub on every channel: frames start .. start + length - 1. */
  method GetSub(a: Audio, start: U32, length: U32) returns (r: Audio)
    requires a.Rect() && a.width >= 1 && (length == 0 || start + length <= |a.frames|)
    ensures r.Rect() && r.width == a.width && |r.frames| == length
    ensures forall b, ch :: 0 <= b < length && 0 <= ch < a.width ==> r.frames[b][ch] == a.frames[start + b][ch]
    ensures start + length <= |a.frames| ==> r == Audio(a.width, a.frames[start..start + length])
  {
    var channels: seq<Channel> := W.SplitAudio(a);
    for ch := 0 to |channels|
      invariant |channels| == a.width
      invariant forall k :: 0 <= k < ch ==> (|channels[k]| == length &&
        forall b :: 0 <= b < length ==> channels[k][b] == a.frames[start + b][k])
      invariant forall k :: ch <= k < |channels| ==> channels[k] == Column(a, k)
    {
      var sub := W.GetSub(channels[ch], start, length);
      channels := channels[ch := sub];
    }
    r := W.MergeToAudio(channels);
    if start + length <= |a.frames| {
      SameSamples(r, Audio(a.width, a.frames[start..start + length]));
    }
  }

  /** JoinAudios: the grids' frames one grid after the other, with the channel
      count of the first grid; the UInt32 frame counter must not wrap. */
  method JoinAudios(audios: seq<Audio>) returns (r: Audio)
    requires |audios| >= 1 && WideEnough(audios, audios[0].width)
    requires FrameTotal(audios) < Two32
    ensures r == Audio(audios[0].width, Stacked(audios, audios[0].width))
    ensures r.Rect() && |r.frames| == FrameTotal(audios)
  {
    var w := audios[0].width;
    var length := 0;
    for au := 0 to |audios|
      invariant length == FrameTotal(audios[..au])
    {
      assert audios[..au + 1][..au] == audios[..au];
      length := length + |audios[au].frames|;
    }
    assert audios[..|audios|] == audios;
    ghost var s := Stacked(audios, w);
    var naudio := new U32[length, w];
    for ch := 0 to w
      invariant forall p, c :: 0 <= p < length && 0 <= c < ch ==> naudio[p, c] == s[p][c]
    {
      StackColumn(naudio, audios, w, s, ch);
    }
    r := ToAudio(naudio);
    SameSamples(r, Audio(w, s));
  }

  /** One pass of JoinAudios' channel loop: column ch of every grid, one
      grid after the other, into column ch of the result. */
  method StackColumn(naudio: array2<U32>, audios: seq<Audio>, w: nat, ghost s: seq<seq<U32>>, ch: nat)
    requires WideEnough(audios, w) && s == Stacked(audios, w) && ch < w
    requires naudio.Length0 == FrameTotal(audios) && naudio.Length1 == w
    modifies naudio
    ensures forall p :: 0 <= p < naudio.Length0 ==> naudio[p, ch] == s[p][ch]
    ensures forall p, c :: 0 <= p < naudio.Length0 && 0 <= c < w && c != ch ==> naudio[p, c] == old(naudio[p, c])
  {
    var pos := 0;
    for au := 0 to |audios|
      invariant pos == FrameTotal(audios[..au]) <= naudio.Length0
      invariant forall p, c :: 0 <= p < naudio.Length0 && 0 <= c < w && c != ch ==> naudio[p, c] == old(naudio[p, c])
      invariant forall p :: 0 <= p < pos ==> naudio[p, ch] == s[p][ch]
    {
      StackedPrefix(audios, w, au + 1);
      assert audios[..au + 1][..au] == audios[..au];
      StackGrid(naudio, audios, w, s, ch, au, pos);
      pos := pos + |audios[au].frames|;
    }
    assert audios[..|audios|] == audios;
  }

  /** JoinAudios' innermost loop: column ch of grid au, frame by frame, from
      position pos on. */
  method StackGrid(naudio: array2<U32>, audios: seq<Audio>, w: nat, ghost s: seq<seq<U32>>, ch: nat, au: nat, pos: nat)
    requires WideEnough(audios, w) && s == Stacked(audios, w) && ch < w && au < |audios|
    requires naudio.Length0 == FrameTotal(audios) && naudio.Length1 == w
    requires pos == FrameTotal(audios[..au])
    modifies naudio
    ensures forall p :: pos <= p < pos + |audios[au].frames| ==> p < naudio.Length0 && naudio[p, ch] == s[p][ch]
    ensures forall p, c :: 0 <= p < naudio.Length0 && 0 <= c < w && !(c == ch && pos <= p < pos + |audios[au].frames|) ==>
              naudio[p, c] == old(naudio[p, c])
  {
    for i := 0 to |audios[au].frames|
      invariant forall p :: pos <= p < pos + i ==> p < naudio.Length0 && naudio[p, ch] == s[p][ch]
      invariant forall p, c :: 0 <= p < naudio.Length0 && 0 <= c < w && !(c == ch && pos <= p < pos + i) ==>
                  naudio[p, c] == old(naudio[p, c])
    {
      StackedAt(audios, w, au, i);
      naudio[pos + i, ch] := audios[au].frames[i][ch];
    }
  }

  /** DeleteSub on every channel: the frames before start, then those from
      (start + length) mod 2^32 on. */
  method DeleteSub(a: Audio, start: U32, length: U32) returns (r: Audio)
    requires a.Rect() && a.width >= 1 && |a.frames| <= MaxLength
    requires start <= |a.frames| && (start + length) % Two32 <= |a.frames|
    ensures r == Audio(a.width, a.frames[..start] + a.frames[(start + length) % Two32..])
    ensures start + length <= |a.frames| ==>
      r == Audio(a.width, a.frames[..start] + a.frames[start + length..]) &&
      |r.frames| == |a.frames| - length
  {
    var e := (start + length) % Two32;
    ghost var kept := a.frames[..start] + a.frames[e..];
    var channels: seq<Channel> := W.SplitAudio(a);
    for ch := 0 to |channels|
      invariant |channels| == a.width
      invariant forall k :: 0 <= k < ch ==> (|channels[k]| == |kept| &&
        forall b :: 0 <= b < |kept| ==> channels[k][b] == kept[b][k])
      invariant forall k :: ch <= k < |channels| ==> channels[k] == Column(a, k)
    {
      var c := W.DeleteSub(channels[ch], start, length);
      assert forall b :: 0 <= b < |kept| ==> c[b] == kept[b][ch] by {
        assert c == Column(a, ch)[..start] + Column(a, ch)[e..];
      }
      channels := channels[ch := c];
    }
    r := W.MergeToAudio(channels);
    SameSamples(r, Audio(a.width, kept));
  }

  /** InsertSub on every channel: the first a.width channels of sub's frames
      spliced in at pos. */
  method InsertSub(a: Audio, sub: Audio, pos: U32) returns (r: Audio)
    requires a.Rect() && a.width >= 1 && |a.frames| <= MaxLength
    requires sub.Rect() && sub.width >= a.width && |sub.frames| <= MaxLength
    requires pos <= |a.frames|
    ensures r == Audio(a.width, a.frames[..pos] + Cut(sub, a.width) + a.frames[pos..])
    ensures sub.width == a.width ==> r == Audio(a.width, a.frames[..pos] + sub.frames + a.frames[pos..])
  {
    ghost var spliced := a.frames[..pos] + Cut(sub, a.width) + a.frames[pos..];
    var channels: seq<Channel> := W.SplitAudio(a);
    var subchannels := W.SplitAudio(sub);
    for ch := 0 to a.width
      invariant |channels| == a.width
      invariant forall k :: 0 <= k < ch ==> (|channels[k]| == |spliced| &&
        forall b :: 0 <= b < |spliced| ==> channels[k][b] == spliced[b][k])
      invariant forall k :: ch <= k < |channels| ==> channels[k] == Column(a, k)
    {
      var c := W.InsertSub(channels[ch], subchannels[ch], pos);
      assert forall b :: 0 <= b < |spliced| ==> c[b] == spliced[b][ch] by {
        assert c == Column(a, ch)[..pos] + Column(sub, ch) + Column(a, ch)[pos..];
      }
      channels := channels[ch := c];
    }
    r := W.MergeToAudio(channels);
    SameSamples(r, Audio(a.width, spliced));
    if sub.width == a.width {
      CutFull(sub);
    }
  }

  /** RewriteSub on every channel: frames start .. start + |sub| - 1 that
      exist take sub's samples (its first a.width channels). */
  method RewriteSub(a: Audio, sub: Audio, start: U32) returns (r: Audio)
    requires a.Rect() && a.width >= 1
    requires sub.Rect() && sub.width >= a.width
    ensures r.Rect() && r.width == a.width && |r.frames| == |a.frames|
    ensures forall b :: 0 <= b < |a.frames| && start <= b < start + |sub.frames| ==>
      r.frames[b] == sub.frames[b - start][..a.width]
    ensures forall b :: 0 <= b < |a.frames| && !(start <= b < start + |sub.frames|) ==>
      r.frames[b] == a.frames[b]
  {
    var chs: seq<Channel> := W.SplitAudio(a);
    var schs := W.SplitAudio(sub);
    for ch := 0 to |chs|
      invariant |chs| == a.width
      invariant forall k :: 0 <= k < ch ==> (|chs[k]| == |a.frames| &&
        forall b :: 0 <= b < |a.frames| ==>
          chs[k][b] == if start <= b < start + |sub.frames| then sub.frames[b - start][k] else a.frames[b][k])
      invariant forall k :: ch <= k < |chs| ==> chs[k] == Column(a, k)
    {
      var c := W.RewriteSub(chs[ch], schs[ch], start);
      chs := chs[ch := c];
    }
    r := W.MergeToAudio(chs);
    forall b | 0 <= b < |a.frames|
      ensures r.frames[b] == if start <= b < start + |sub.frames| then sub.frames[b - start][..a.width] else a.frames[b]
    {
      var row := if start <= b < start + |sub.frames| then sub.frames[b - start][..a.width] else a.frames[b];
      assert forall k :: 0 <= k < a.width ==> r.frames[b][k] == row[k];
    }
  }

  /** Merge on every channel pair: the wrapped UInt32 sum, halved. */
  method Merge(au1: Audio, au2: Audio) returns (r: Audio)
    requires au1.Rect() && au1.width >= 1
    requires au2.Rect() && au2.width >= au1.width && |au2.frames| >= |au1.frames|
    ensures r.Rect() && r.width == au1.width && |r.frames| == |au1.frames|
    ensures forall b, ch :: 0 <= b < |au1.frames| && 0 <= ch < au1.width ==>
      r.frames[b][ch] == W.MergeSample(au1.frames[b][ch], au2.frames[b][ch])
    ensures forall b, ch :: 0 <= b < |au1.frames| && 0 <= ch < au1.width ==>
      (r.frames[b][ch] == (au1.frames[b][ch] as int + au2.frames[b][ch] as int) / 2 <==>
       au1.frames[b][ch] as int + au2.frames[b][ch] as int < Two32)
  {
    var chs1: seq<Channel> := W.SplitAudio(au1);
    var chs2 := W.SplitAudio(au2);
    for ch := 0 to |chs1|
      invariant |chs1| == au1.width
      invariant forall k :: 0 <= k < ch ==> (|chs1[k]| == |au1.frames| &&
        forall b :: 0 <= b < |au1.frames| ==>
          chs1[k][b] == W.MergeSample(au1.frames[b][k], au2.frames[b][k]))
      invariant forall k :: ch <= k < |chs1| ==> chs1[k] == Column(au1, k)
    {
      var c := W.Merge(chs1[ch], chs2[ch]);
      chs1 := chs1[ch := c];
    }
    r := W.MergeToAudio(chs1);
    forall b, ch | 0 <= b < |au1.frames| && 0 <= ch < au1.width
      ensures r.frames[b][ch] == (au1.frames[b][ch] as int + au2.frames[b][ch] as int) / 2 <==>
              au1.frames[b][ch] as int + au2.frames[b][ch] as int < Two32
    {
      W.MergeSampleIsMean(au1.frames[b][ch], au2.frames[b][ch]);
    }
  }

  /** Reverse on every channel: the frames in reverse order. */
  method Reverse(a: Audio) returns (r: Audio)
    requires a.Rect() && a.width >= 1
    ensures r == Audio(a.width, W.Reversed(a.frames))
  {
    var channels: seq<Channel> := W.SplitAudio(a);
    for ch := 0 to |channels|
      invariant |channels| == a.width
      invariant forall k :: 0 <= k < ch ==> channels[k] == W.Reversed(Column(a, k))
      invariant forall k :: ch <= k < |channels| ==> channels[k] == Column(a, k)
    {
      var c := W.Reverse(channels[ch]);
      channels := channels[ch := c];
    }
    r := W.MergeToAudio(channels);
    ghost var rev := W.Reversed(a.frames);
    forall b, k | 0 <= b < |a.frames| && 0 <= k < a.width
      ensures r.frames[b][k] == rev[b][k]
    {
      assert r.frames[b][k] == W.Reversed(Column(a, k))[b];
    }
    SameSamples(r, Audio(a.width, rev));
  }

  /** Reversing a grid twice gives it back, and keeps its shape. */
  lemma ReverseInvolutive(a: Audio)
    requires a.Rect()
    ensures Audio(a.width, W.Reversed(a.frames)).Rect()
    ensures Audio(a.width, W.Reversed(W.Reversed(a.frames))) == a
  {
    W.ReversedInvolutive(a.frames);
  }
}
