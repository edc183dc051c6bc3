/**
 * What the transcoder computes, stated on values. A channel is the sequence
 * of samples in the active half of its double buffer; an interleaved buffer
 * holds frame after frame, a frame being one sample of every channel in
 * channel order. On the file side the interleaved buffer is a flat run of
 * bytes, which is cut into samples of the sample size.
 */
module Interleaving {
  import opened Base
  import opened Asio
  import opened Arith

  /** Every sample is `s` bytes long. */
  predicate SizedSamples(xs: seq<Sample>, s: nat) {
    forall i :: 0 <= i < |xs| ==> |xs[i]| == s
  }

  /** The bytes of a run of samples, one sample after the other. */
  function Flatten(xs: seq<Sample>): seq<byte> {
    if xs == [] then [] else Flatten(xs[..|xs| - 1]) + xs[|xs| - 1]
  }

  /** A flat run of bytes cut into samples of `s` bytes; a short tail is dropped. */
  function Chunks(data: seq<byte>, s: nat): (r: seq<Sample>)
    requires s > 0
    ensures SizedSamples(r, s)
    decreases |data|
  {
    if |data| < s then [] else [data[..s]] + Chunks(data[s..], s)
  }

  lemma {:induction false} FlattenAppend(a: seq<Sample>, b: seq<Sample>)
    ensures Flatten(a + b) == Flatten(a) + Flatten(b)
    decreases |b|
  {
    if b != [] {
      assert (a + b)[..|a + b| - 1] == a + b[..|b| - 1];
      FlattenAppend(a, b[..|b| - 1]);
    } else {
      assert a + b == a;
    }
  }

  lemma FlattenSnoc(xs: seq<Sample>, x: Sample)
    ensures Flatten(xs + [x]) == Flatten(xs) + x
  {
    assert (xs + [x])[..|xs|] == xs;
  }

  /** `|xs|` samples of `s` bytes make `|xs| * s` bytes. */
  lemma {:induction false} FlattenLength(xs: seq<Sample>, s: nat)
    requires SizedSamples(xs, s)
    ensures |Flatten(xs)| == |xs| * s
  {
    if xs != [] {
      var init := xs[..|xs| - 1];
      assert SizedSamples(init, s) by {
        forall i | 0 <= i < |init| ensures |init[i]| == s { assert init[i] == xs[i]; }
      }
      FlattenLength(init, s);
      assert |xs[|xs| - 1]| == s;
      MulPred(|xs|, s);
    }
  }

  /** Byte k of sample m sits at offset m * s + k of the flat run. */
  lemma {:induction false} FlattenAt(xs: seq<Sample>, s: nat, m: nat, k: nat)
    requires SizedSamples(xs, s) && m < |xs| && k < s
    ensures m * s + k < |Flatten(xs)|
    ensures Flatten(xs)[m * s + k] == xs[m][k]
  {
    var init := xs[..|xs| - 1];
    FlattenLength(init, s);
    FlattenLength(xs, s);
    MulLe(m + 1, |xs|, s);
    if m < |xs| - 1 {
      FlattenAt(init, s, m, k);
      MulLe(m + 1, |xs| - 1, s);
    }
  }

  /** Cutting `k * s` bytes gives k samples. */
  lemma {:induction false} ChunksCount(data: seq<byte>, s: nat, k: nat)
    requires s > 0 && |data| == k * s
    ensures |Chunks(data, s)| == k
  {
    if k > 0 {
      ChunksCount(data[s..], s, k - 1);
    }
  }

  /** Sample m of the cut is bytes m * s up to (m + 1) * s of the run. */
  lemma {:induction false} ChunkAt(data: seq<byte>, s: nat, m: nat)
    requires s > 0 && m * s + s <= |data|
    ensures m < |Chunks(data, s)|
    ensures Chunks(data, s)[m] == data[m * s .. m * s + s]
  {
    if m > 0 {
      MulPred(m, s);
      ChunkAt(data[s..], s, m - 1);
      assert data[s..][(m - 1) * s .. (m - 1) * s + s] == data[m * s .. m * s + s];
    }
  }

  /** Flattening the samples cut from a run gives the run back, when it holds a whole number of samples. */
  lemma {:induction false} FlattenChunks(data: seq<byte>, s: nat, k: nat)
    requires s > 0 && |data| == k * s
    ensures Flatten(Chunks(data, s)) == data
  {
    if k > 0 {
      MulPred(k, s);
      FlattenChunks(data[s..], s, k - 1);
      FlattenAppend([data[..s]], Chunks(data[s..], s));
      assert Flatten([data[..s]]) == data[..s] by {
        assert [data[..s]][..0] == [];
      }
      calc {
        Flatten(Chunks(data, s));
        Flatten([data[..s]] + Chunks(data[s..], s));
        Flatten([data[..s]]) + Flatten(Chunks(data[s..], s));
        data[..s] + data[s..];
        data;
      }
    }
  }

  /** Cutting the bytes of sized samples gives the samples back. */
  lemma {:induction false} ChunksFlatten(xs: seq<Sample>, s: nat)
    requires s > 0 && SizedSamples(xs, s)
    ensures Chunks(Flatten(xs), s) == xs
    decreases |xs|
  {
    if xs != [] {
      assert xs == [xs[0]] + xs[1..];
      FlattenAppend([xs[0]], xs[1..]);
      assert Flatten([xs[0]]) == xs[0] by {
        assert [xs[0]][..0] == [];
      }
      var flat := Flatten(xs);
      assert flat == xs[0] + Flatten(xs[1..]);
      assert flat[..s] == xs[0] && flat[s..] == Flatten(xs[1..]);
      ChunksFlatten(xs[1..], s);
    } else {
      assert Flatten(xs) == [];
    }
  }

  /** Every channel holds at least `frames` samples. */
  predicate HoldsFrames(chans: seq<seq<Sample>>, frames: nat) {
    forall c :: 0 <= c < |chans| ==> frames <= |chans[c]|
  }

  /** Every channel holds at least `frames` samples, each `s` bytes long. */
  predicate Ready(chans: seq<seq<Sample>>, s: nat, frames: nat) {
    && HoldsFrames(chans, frames)
    && forall c, m :: 0 <= c < |chans| && 0 <= m < frames ==> |chans[c][m]| == s
  }

  /** Frame j: sample j of every channel, in channel order. */
  function Frame(chans: seq<seq<Sample>>, j: nat): (r: seq<Sample>)
    requires HoldsFrames(chans, j + 1)
  {
    seq(|chans|, c requires 0 <= c < |chans| => chans[c][j])
  }

  /** A frame of the first c + 1 channels is the frame of the first c and one more sample. */
  lemma FrameSnoc(chans: seq<seq<Sample>>, j: nat, c: nat)
    requires HoldsFrames(chans, j + 1) && c < |chans|
    ensures HoldsFrames(chans[..c], j + 1) && HoldsFrames(chans[..c + 1], j + 1)
    ensures Frame(chans[..c + 1], j) == Frame(chans[..c], j) + [chans[c][j]]
    ensures Frame(chans[..c + 1], j) <= Frame(chans, j)
  {
    assert forall i :: 0 <= i < c + 1 ==> chans[..c + 1][i] == chans[i];
  }

  /** The bytes of sample j of the first c channels, one after the other. */
  function FrameBytes(chans: seq<seq<Sample>>, j: nat, c: nat): seq<byte>
    requires c <= |chans| && HoldsFrames(chans, j + 1)
  {
    if c == 0 then [] else FrameBytes(chans, j, c - 1) + chans[c - 1][j]
  }

  /** The bytes of the first c samples of a frame are a prefix of the bytes of the first d. */
  lemma {:induction false} FrameBytesPrefix(chans: seq<seq<Sample>>, j: nat, c: nat, d: nat)
    requires c <= d <= |chans| && HoldsFrames(chans, j + 1)
    ensures FrameBytes(chans, j, c) <= FrameBytes(chans, j, d)
    decreases d
  {
    if c < d {
      FrameBytesPrefix(chans, j, c, d - 1);
    }
  }

  /** Sample j of the first c channels, flattened. */
  lemma {:induction false} FrameBytesFlatten(chans: seq<seq<Sample>>, j: nat, c: nat)
    requires c <= |chans| && HoldsFrames(chans, j + 1)
    ensures HoldsFrames(chans[..c], j + 1)
    ensures FrameBytes(chans, j, c) == Flatten(Frame(chans[..c], j))
  {
    if c > 0 {
      FrameBytesFlatten(chans, j, c - 1);
      FrameSnoc(chans, j, c - 1);
      FlattenSnoc(Frame(chans[..c - 1], j), chans[c - 1][j]);
    } else {
      assert Frame(chans[..c], j) == [];
    }
  }

  /** The first `frames` frames, one after the other. */
  function Interleave(chans: seq<seq<Sample>>, frames: nat): (r: seq<Sample>)
    requires HoldsFrames(chans, frames)
  {
    if frames == 0 then []
    else Interleave(chans, frames - 1) + Frame(chans, frames - 1)
  }

  /** `frames` frames of n channels are frames * n samples. */
  lemma {:induction false} InterleaveLength(chans: seq<seq<Sample>>, frames: nat)
    requires HoldsFrames(chans, frames)
    ensures |Interleave(chans, frames)| == frames * |chans|
  {
    if frames > 0 {
      InterleaveLength(chans, frames - 1);
      MulPred(frames, |chans|);
    }
  }

  /** Interleaving fewer frames gives a prefix of interleaving more. */
  lemma {:induction false} InterleavePrefix(chans: seq<seq<Sample>>, a: nat, b: nat)
    requires HoldsFrames(chans, b) && a <= b
    ensures Interleave(chans, a) <= Interleave(chans, b)
    decreases b
  {
    if a < b {
      InterleavePrefix(chans, a, b - 1);
      var shorter := Interleave(chans, b - 1);
      assert Interleave(chans, b) == shorter + Frame(chans, b - 1);
      assert Interleave(chans, a) == shorter[..|Interleave(chans, a)|];
    }
  }

  /** Sample c of frame j is inside the first `frames` frames. */
  lemma SampleIndex(j: nat, c: nat, n: nat, frames: nat)
    requires j < frames && c < n
    ensures j * n + c < frames * n
  {
    MulLe(j + 1, frames, n);
  }

  /** Splits a position of an interleaved buffer into its frame and its channel. */
  lemma Decompose(i: nat, n: nat, frames: nat) returns (j: nat, c: nat)
    requires i < frames * n
    ensures j < frames && c < n && i == j * n + c
  {
    j := i / n;
    c := i % n;
    if j >= frames {
      MulLe(frames, j, n);
    }
  }

  /** The samples of channel c in the first `frames` frames of an interleaved buffer of n channels. */
  function ChannelOf(xs: seq<Sample>, n: nat, c: nat, frames: nat): (r: seq<Sample>)
    requires c < n && frames * n <= |xs|
  {
    seq(frames, j requires 0 <= j < frames => SampleIndex(j, c, n, frames); xs[j * n + c])
  }

  /** All n channels of an interleaved buffer. */
  function Channels(xs: seq<Sample>, n: nat, frames: nat): (r: seq<seq<Sample>>)
    requires frames * n <= |xs|
  {
    seq(n, c requires 0 <= c < n => ChannelOf(xs, n, c, frames))
  }

  /** Sample j of channel c is sample j * n + c of the interleaved buffer. */
  lemma {:induction false} InterleaveAt(chans: seq<seq<Sample>>, frames: nat, j: nat, c: nat)
    requires HoldsFrames(chans, frames) && j < frames && c < |chans|
    ensures j * |chans| + c < |Interleave(chans, frames)|
    ensures Interleave(chans, frames)[j * |chans| + c] == chans[c][j]
  {
    var n, p := |chans|, frames - 1;
    var init, last := Interleave(chans, p), Frame(chans, p);
    assert Interleave(chans, frames) == init + last;
    InterleaveLength(chans, p);
    MulPred(frames, n);
    SampleIndex(j, c, n, frames);
    if j < p {
      InterleaveAt(chans, p, j, c);
      assert (init + last)[j * n + c] == init[j * n + c];
    } else {
      assert (init + last)[j * n + c] == last[c];
    }
  }

  /** All samples of frame j give the bytes of the frame. */
  lemma FrameBytesAll(chans: seq<seq<Sample>>, j: nat)
    requires HoldsFrames(chans, j + 1)
    ensures FrameBytes(chans, j, |chans|) == Flatten(Frame(chans, j))
  {
    FrameBytesFlatten(chans, j, |chans|);
    assert chans[..|chans|] == chans;
  }

  /** The bytes of the first `frames` frames, frame after frame. */
  function StreamBytes(chans: seq<seq<Sample>>, frames: nat): seq<byte>
    requires HoldsFrames(chans, frames)
  {
    if frames == 0 then [] else StreamBytes(chans, frames - 1) + FrameBytes(chans, frames - 1, |chans|)
  }

  /** The bytes of fewer frames are a prefix of the bytes of more. */
  lemma {:induction false} StreamBytesPrefix(chans: seq<seq<Sample>>, a: nat, b: nat)
    requires a <= b && HoldsFrames(chans, b)
    ensures StreamBytes(chans, a) <= StreamBytes(chans, b)
    decreases b
  {
    if a < b {
      StreamBytesPrefix(chans, a, b - 1);
    }
  }

  /**
   * Frame j of channels whose sample j has s bytes each sits in `data` at
   * byte `at`.
   */
  predicate FrameIn(data: seq<byte>, at: nat, chans: seq<seq<Sample>>, j: nat, s: nat) {
    && HoldsFrames(chans, j + 1)
    && (forall c :: 0 <= c < |chans| ==> |chans[c][j]| == s)
    && at + |FrameBytes(chans, j, |chans|)| <= |data|
    && data[at .. at + |FrameBytes(chans, j, |chans|)|] == FrameBytes(chans, j, |chans|)
  }

  /** In the stream of `frames` frames, the bytes of frame j follow those of the frames before it. */
  lemma StreamFrameAt(data: seq<byte>, chans: seq<seq<Sample>>, s: nat, j: nat, frames: nat)
    requires Ready(chans, s, frames) && j < frames && StreamBytes(chans, frames) == data
    ensures FrameIn(data, |StreamBytes(chans, j)|, chans, j, s)
    ensures |StreamBytes(chans, j + 1)| == |StreamBytes(chans, j)| + |FrameBytes(chans, j, |chans|)|
  {
    StreamBytesPrefix(chans, j + 1, frames);
    SliceOfPrefix(data, 0, StreamBytes(chans, j + 1), StreamBytes(chans, j), FrameBytes(chans, j, |chans|));
  }

  /**
   * Frame j of a stream sits at offsets[j], the next frame starts right after
   * it, and the frame takes some bytes.
   */
  predicate FrameAt(data: seq<byte>, chans: seq<seq<Sample>>, s: nat, offsets: seq<nat>, j: nat)
    requires j + 1 < |offsets|
  {
    && FrameIn(data, offsets[j], chans, j, s)
    && offsets[j + 1] == offsets[j] + |FrameBytes(chans, j, |chans|)|
    && offsets[j] < |data|
  }

  /** Where each frame of a stream of `frames` frames starts. */
  predicate Layout(data: seq<byte>, chans: seq<seq<Sample>>, s: nat, frames: nat, offsets: seq<nat>) {
    && |offsets| == frames + 1 && offsets[0] == 0 && offsets[frames] == |data|
    && forall j :: 0 <= j < frames ==> FrameAt(data, chans, s, offsets, j)
  }

  /** The lengths of the stream's first 0, 1, ..., `frames` frames. */
  function FrameOffsets(chans: seq<seq<Sample>>, frames: nat): (r: seq<nat>)
    requires HoldsFrames(chans, frames)
    ensures |r| == frames + 1
    ensures forall j :: 0 <= j <= frames ==> r[j] == |StreamBytes(chans, j)|
  {
    if frames == 0 then [0] else FrameOffsets(chans, frames - 1) + [|StreamBytes(chans, frames)|]
  }

  /** The frame offsets of the stream of `frames` frames of non-empty samples. */
  lemma StreamLayout(data: seq<byte>, chans: seq<seq<Sample>>, s: nat, frames: nat) returns (offsets: seq<nat>)
    requires Ready(chans, s, frames) && |chans| > 0 && s > 0 && StreamBytes(chans, frames) == data
    ensures Layout(data, chans, s, frames, offsets)
  {
    offsets := FrameOffsets(chans, frames);
    forall j | 0 <= j < frames
      ensures FrameAt(data, chans, s, offsets, j)
    {
      StreamFrameStarts(data, chans, s, j, frames);
    }
  }

  /** Frame j of the stream sits where the frames before it end, and before the end of the stream. */
  lemma StreamFrameStarts(data: seq<byte>, chans: seq<seq<Sample>>, s: nat, j: nat, frames: nat)
    requires Ready(chans, s, frames) && |chans| > 0 && s > 0 && StreamBytes(chans, frames) == data && j < frames
    ensures FrameIn(data, |StreamBytes(chans, j)|, chans, j, s)
    ensures |StreamBytes(chans, j + 1)| == |StreamBytes(chans, j)| + |FrameBytes(chans, j, |chans|)|
    ensures |StreamBytes(chans, j)| < |data|
  {
    StreamFrameAt(data, chans, s, j, frames);
    FrameBytesNonEmpty(chans, j);
  }

  /** Frame after frame, the stream bytes are the flattened interleaving. */
  lemma {:induction false} StreamBytesFlatten(chans: seq<seq<Sample>>, frames: nat)
    requires HoldsFrames(chans, frames)
    ensures StreamBytes(chans, frames) == Flatten(Interleave(chans, frames))
  {
    if frames > 0 {
      var p := frames - 1;
      StreamBytesFlatten(chans, p);
      FrameBytesAll(chans, p);
      FlattenAppend(Interleave(chans, p), Frame(chans, p));
      calc {
        StreamBytes(chans, frames);
        StreamBytes(chans, p) + FrameBytes(chans, p, |chans|);
        Flatten(Interleave(chans, p)) + Flatten(Frame(chans, p));
        Flatten(Interleave(chans, p) + Frame(chans, p));
        Flatten(Interleave(chans, frames));
      }
    }
  }

  /** A frame of at least one non-empty sample has bytes. */
  lemma FrameBytesNonEmpty(chans: seq<seq<Sample>>, j: nat)
    requires HoldsFrames(chans, j + 1) && |chans| > 0 && |chans[0][j]| > 0
    ensures |FrameBytes(chans, j, |chans|)| > 0
  {
    FrameBytesPrefix(chans, j, 1, |chans|);
  }

  /** Where `whole` sits in a run at `at`, a piece x of it that follows `before` sits right after `before`. */
  lemma SliceOfPrefix(data: seq<byte>, at: nat, whole: seq<byte>, before: seq<byte>, x: seq<byte>)
    requires at + |whole| <= |data| && data[at .. at + |whole|] == whole && before + x <= whole
    ensures at + |before| + |x| <= |data|
    ensures data[at + |before| .. at + |before| + |x|] == x
  {
    forall i | 0 <= i < |x|
      ensures data[at + |before| + i] == x[i]
    {
      assert data[at + |before| + i] == whole[|before| + i];
      assert whole[|before| + i] == (before + x)[|before| + i];
    }
  }

  /** Where a frame's bytes sit in a run, sample c of the frame sits right after the bytes of the samples before it. */
  lemma FrameSampleAt(data: seq<byte>, at: nat, chans: seq<seq<Sample>>, j: nat, c: nat)
    requires c < |chans| && HoldsFrames(chans, j + 1)
    requires at + |FrameBytes(chans, j, |chans|)| <= |data|
    requires data[at .. at + |FrameBytes(chans, j, |chans|)|] == FrameBytes(chans, j, |chans|)
    ensures at + |FrameBytes(chans, j, c)| + |chans[c][j]| <= |data|
    ensures data[at + |FrameBytes(chans, j, c)| .. at + |FrameBytes(chans, j, c)| + |chans[c][j]|] == chans[c][j]
  {
    var whole, before, x := FrameBytes(chans, j, |chans|), FrameBytes(chans, j, c), chans[c][j];
    FrameSampleInFrame(chans, j, c);
    assert before + x <= whole;
    SliceOfPrefix(data, at, whole, before, x);
  }

  /** The bytes of the samples before c, followed by sample c, begin the bytes of the whole frame. */
  lemma FrameSampleInFrame(chans: seq<seq<Sample>>, j: nat, c: nat)
    requires c < |chans| && HoldsFrames(chans, j + 1)
    ensures FrameBytes(chans, j, c) + chans[c][j] <= FrameBytes(chans, j, |chans|)
  {
    FrameBytesPrefix(chans, j, c + 1, |chans|);
    assert FrameBytes(chans, j, c + 1) == FrameBytes(chans, j, c) + chans[c][j];
  }

  /** A run of a whole number of frames cuts into whole frames of samples, which flatten back to the run. */
  lemma ChunkedFrames(data: seq<byte>, n: nat, s: nat)
    requires n > 0 && s > 0 && |data| % (n * s) == 0
    ensures |Chunks(data, s)| == |data| / (n * s) * n
    ensures Flatten(Chunks(data, s)) == data
  {
    var frames := |data| / (n * s);
    DivExact(|data|, n * s);
    MulAssoc(frames, n, s);
    ChunksCount(data, s, frames * n);
    FlattenChunks(data, s, frames * n);
  }

  /**
   * A run of bytes holding a whole number of frames of n channels with
   * samples of s bytes is the stream of the channels cut out of it.
   */
  lemma Deinterleaved(data: seq<byte>, n: nat, s: nat) returns (frames: nat)
    requires n > 0 && s > 0 && |data| % (n * s) == 0
    ensures frames == |data| / (n * s) && frames * n <= |Chunks(data, s)|
    ensures Ready(Channels(Chunks(data, s), n, frames), s, frames)
    ensures StreamBytes(Channels(Chunks(data, s), n, frames), frames) == data
  {
    MulPos(n, s);
    frames := |data| / (n * s);
    ChunkedFrames(data, n, s);
    var xs := Chunks(data, s);
    InterleaveChannels(xs, n, frames);
    assert xs[..frames * n] == xs;
    var chans := Channels(xs, n, frames);
    StreamBytesFlatten(chans, frames);
    ChannelsReady(xs, n, s, frames);
  }

  /** The channels cut out of sized samples hold sized samples. */
  lemma ChannelsReady(xs: seq<Sample>, n: nat, s: nat, frames: nat)
    requires SizedSamples(xs, s) && frames * n <= |xs|
    ensures Ready(Channels(xs, n, frames), s, frames)
  {
    var chans := Channels(xs, n, frames);
    forall c, m | 0 <= c < n && 0 <= m < frames
      ensures |chans[c][m]| == s
    {
      SampleIndex(m, c, n, frames);
    }
  }

  /**
   * When the first `frames` frames hold samples of s bytes, so does their
   * interleaving, which is then frames * n * s bytes long.
   */
  lemma InterleavedBytes(chans: seq<seq<Sample>>, s: nat, frames: nat)
    requires Ready(chans, s, frames)
    ensures SizedSamples(Interleave(chans, frames), s)
    ensures |Flatten(Interleave(chans, frames))| == frames * (|chans| * s)
  {
    InterleavedSized(chans, s, frames);
    InterleaveLength(chans, frames);
    FlattenLength(Interleave(chans, frames), s);
    MulAssoc(frames, |chans|, s);
  }

  lemma InterleavedSized(chans: seq<seq<Sample>>, s: nat, frames: nat)
    requires Ready(chans, s, frames)
    ensures SizedSamples(Interleave(chans, frames), s)
  {
    var xs := Interleave(chans, frames);
    InterleaveLength(chans, frames);
    forall i | 0 <= i < |xs| ensures |xs[i]| == s {
      var j, c := Decompose(i, |chans|, frames);
      InterleaveAt(chans, frames, j, c);
    }
  }

  /**
   * Byte k of sample j of channel c is byte (j * n + c) * s + k of the
   * flattened interleaved buffer.
   */
  lemma InterleavedByteAt(chans: seq<seq<Sample>>, s: nat, frames: nat, j: nat, c: nat, k: nat)
    requires Ready(chans, s, frames) && j < frames && c < |chans| && k < s
    ensures (j * |chans| + c) * s + k < |Flatten(Interleave(chans, frames))|
    ensures Flatten(Interleave(chans, frames))[(j * |chans| + c) * s + k] == chans[c][j][k]
  {
    InterleavedBytes(chans, s, frames);
    InterleaveAt(chans, frames, j, c);
    FlattenAt(Interleave(chans, frames), s, j * |chans| + c, k);
  }

  /**
   * Round trip: taking channel c back out of the interleaving of a channel
   * list gives the first `frames` samples of that channel.
   */
  lemma ChannelOfInterleave(chans: seq<seq<Sample>>, frames: nat, c: nat)
    requires HoldsFrames(chans, frames) && c < |chans|
    ensures frames <= |chans[c]| && |Interleave(chans, frames)| == frames * |chans|
    ensures ChannelOf(Interleave(chans, frames), |chans|, c, frames) == chans[c][.. frames]
  {
    InterleaveLength(chans, frames);
    forall j | 0 <= j < frames
      ensures ChannelOf(Interleave(chans, frames), |chans|, c, frames)[j] == chans[c][j]
    {
      InterleaveAt(chans, frames, j, c);
    }
  }

  /** Every channel of the interleaved buffer is the corresponding channel's first `frames` samples. */
  lemma InterleavedChannels(chans: seq<seq<Sample>>, frames: nat)
    requires HoldsFrames(chans, frames)
    ensures |Interleave(chans, frames)| == frames * |chans|
    ensures forall c :: 0 <= c < |chans| ==> ChannelOf(Interleave(chans, frames), |chans|, c, frames) == chans[c][.. frames]
  {
    InterleaveLength(chans, frames);
    forall c | 0 <= c < |chans| ensures ChannelOf(Interleave(chans, frames), |chans|, c, frames) == chans[c][.. frames] {
      ChannelOfInterleave(chans, frames, c);
    }
  }

  /**
   * The other round trip: interleaving the channels taken out of an
   * interleaved buffer gives back its first `frames` frames.
   */
  lemma InterleaveChannels(xs: seq<Sample>, n: nat, frames: nat)
    requires frames * n <= |xs|
    ensures HoldsFrames(Channels(xs, n, frames), frames)
    ensures |Interleave(Channels(xs, n, frames), frames)| == frames * n
    ensures Interleave(Channels(xs, n, frames), frames) == xs[.. frames * n]
  {
    var chans := Channels(xs, n, frames);
    var back := Interleave(chans, frames);
    InterleaveLength(chans, frames);
    forall i | 0 <= i < frames * n
      ensures back[i] == xs[i]
    {
      var j, c := Decompose(i, n, frames);
      InterleaveAt(chans, frames, j, c);
    }
  }
}
