/**
 * The test harness's transcoder between the driver's per-channel double
 * buffers and the interleaved sample stream of a sound file
 * (MakeInterleavedBuffer and CopyInterleavedBufferToASIO).
 */
module Transcoder {
  import opened Base
  import opened Asio
  import opened Arith
  import opened Interleaving

  /**
   * std::stable_partition on the direction followed by a resize to the
   * partition point: the descriptors of one direction, in their original order.
   */
  function Selected(infos: seq<BufferInfo>, isInput: bool): seq<BufferInfo> {
    if infos == [] then []
    else (if infos[0].isInput == isInput then [infos[0]] else []) + Selected(infos[1..], isInput)
  }

  /** The active half of every descriptor's double buffer. */
  function ActiveHalves(infos: seq<BufferInfo>, doubleBufferIndex: nat): (r: seq<array<Sample>>)
    requires doubleBufferIndex < 2
    ensures |r| == |infos|
    ensures forall i :: 0 <= i < |infos| ==> r[i] == infos[i].Half(doubleBufferIndex)
  {
    seq(|infos|, i requires 0 <= i < |infos| => infos[i].Half(doubleBufferIndex))
  }

  /** What the halves hold. */
  ghost function Contents(halves: seq<array<Sample>>): (r: seq<seq<Sample>>)
    reads halves
    ensures |r| == |halves|
    ensures forall i :: 0 <= i < |halves| ==> r[i] == halves[i][..]
  {
    seq(|halves|, i requires 0 <= i < |halves| reads halves => halves[i][..])
  }

  /** No two channels share their active half. */
  predicate DistinctHalves(halves: seq<array<Sample>>) {
    forall i, j :: 0 <= i < |halves| && 0 <= j < |halves| && i != j ==> halves[i] != halves[j]
  }

  /** Every half has room for `frames` samples. */
  predicate RoomFor(halves: seq<array<Sample>>, frames: nat) {
    forall i :: 0 <= i < |halves| ==> frames <= halves[i].Length
  }

  /** The selection keeps exactly the descriptors of the direction. */
  lemma {:induction false} SelectedMembers(infos: seq<BufferInfo>, isInput: bool)
    ensures forall i :: 0 <= i < |Selected(infos, isInput)| ==>
      Selected(infos, isInput)[i] in infos && Selected(infos, isInput)[i].isInput == isInput
    ensures forall i :: 0 <= i < |infos| && infos[i].isInput == isInput ==> infos[i] in Selected(infos, isInput)
  {
    if infos != [] {
      SelectedMembers(infos[1..], isInput);
      var head := if infos[0].isInput == isInput then [infos[0]] else [];
      var rest := Selected(infos[1..], isInput);
      forall i | 0 <= i < |head + rest|
        ensures (head + rest)[i] in infos && (head + rest)[i].isInput == isInput
      {
        if i >= |head| {
          assert (head + rest)[i] == rest[i - |head|];
          assert rest[i - |head|] in infos[1..];
        }
      }
      forall i | 0 <= i < |infos| && infos[i].isInput == isInput
        ensures infos[i] in head + rest
      {
        if i > 0 {
          assert infos[i] == infos[1..][i - 1];
          assert infos[i] in rest;
        }
      }
    }
  }

  /** Selection distributes over concatenation. */
  lemma {:induction false} SelectedAppend(a: seq<BufferInfo>, b: seq<BufferInfo>, isInput: bool)
    ensures Selected(a + b, isInput) == Selected(a, isInput) + Selected(b, isInput)
  {
    if a != [] {
      assert (a + b)[1..] == a[1..] + b;
      SelectedAppend(a[1..], b, isInput);
    } else {
      assert a + b == b;
    }
  }

  /** Every descriptor goes to exactly one side of the partition. */
  lemma {:induction false} SelectedSizes(infos: seq<BufferInfo>)
    ensures |Selected(infos, true)| + |Selected(infos, false)| == |infos|
  {
    if infos != [] {
      SelectedSizes(infos[1..]);
    }
  }

  /** When no two halves of a list coincide, the selected channels have distinct active halves. */
  lemma {:induction false} SelectedDistinct(infos: seq<BufferInfo>, isInput: bool, doubleBufferIndex: nat)
    requires Disjoint(infos) && doubleBufferIndex < 2
    ensures DistinctHalves(ActiveHalves(Selected(infos, isInput), doubleBufferIndex))
  {
    if infos != [] {
      var tail := infos[1..];
      DisjointTail(infos);
      SelectedDistinct(tail, isInput, doubleBufferIndex);
      var rest := Selected(tail, isInput);
      if infos[0].isInput == isInput {
        var h := infos[0].Half(doubleBufferIndex);
        var others := ActiveHalves(rest, doubleBufferIndex);
        HeadApart(infos, isInput, doubleBufferIndex);
        DistinctCons(h, others);
        assert ActiveHalves(Selected(infos, isInput), doubleBufferIndex) == [h] + others;
      } else {
        assert Selected(infos, isInput) == rest;
      }
    }
  }

  lemma DisjointTail(infos: seq<BufferInfo>)
    requires Disjoint(infos) && infos != []
    ensures Disjoint(infos[1..])
  {
    var tail := infos[1..];
    forall i, j, h, h' | 0 <= i < |tail| && 0 <= j < |tail| && 0 <= h < 2 && 0 <= h' < 2 && (i != j || h != h')
      ensures tail[i].Half(h) != tail[j].Half(h')
    {
      assert tail[i] == infos[i + 1] && tail[j] == infos[j + 1];
    }
  }

  /** The active half of the first descriptor is none of the selected later ones'. */
  lemma HeadApart(infos: seq<BufferInfo>, isInput: bool, doubleBufferIndex: nat)
    requires Disjoint(infos) && infos != [] && doubleBufferIndex < 2
    ensures forall i :: 0 <= i < |Selected(infos[1..], isInput)| ==>
      infos[0].Half(doubleBufferIndex) != Selected(infos[1..], isInput)[i].Half(doubleBufferIndex)
  {
    var tail := infos[1..];
    var rest := Selected(tail, isInput);
    SelectedMembers(tail, isInput);
    forall i | 0 <= i < |rest|
      ensures infos[0].Half(doubleBufferIndex) != rest[i].Half(doubleBufferIndex)
    {
      assert rest[i] in tail;
      var k :| 0 <= k < |tail| && tail[k] == rest[i];
      assert infos[k + 1] == rest[i];
    }
  }

  lemma DistinctCons(h: array<Sample>, rest: seq<array<Sample>>)
    requires DistinctHalves(rest) && forall i :: 0 <= i < |rest| ==> h != rest[i]
    ensures DistinctHalves([h] + rest)
  {
    var r := [h] + rest;
    forall i, j | 0 <= i < |r| && 0 <= j < |r| && i != j
      ensures r[i] != r[j]
    {
      if i > 0 { assert r[i] == rest[i - 1]; }
      if j > 0 { assert r[j] == rest[j - 1]; }
    }
  }

  /** memcpy of one sample into the interleaved buffer at byte `ptr`. */
  method CopySample(buffer: array<byte>, ptr: nat, sample: Sample)
    requires ptr + |sample| <= buffer.Length
    modifies buffer
    ensures buffer[..ptr + |sample|] == old(buffer[..ptr]) + sample
    ensures forall k :: ptr + |sample| <= k < buffer.Length ==> buffer[k] == old(buffer[k])
  {
    forall k | ptr <= k < ptr + |sample| {
      buffer[k] := sample[k - ptr];
    }
  }

  /** Sample j of every half is sample j of the matching channel of `chans`. */
  predicate SampleRow(halves: seq<array<Sample>>, chans: seq<seq<Sample>>, j: nat)
    reads halves
  {
    && |halves| == |chans| && HoldsFrames(chans, j + 1)
    && forall c :: 0 <= c < |halves| ==> j < halves[c].Length && halves[c][j] == chans[c][j]
  }

  /**
   * One pass of the inner loop of MakeInterleavedBuffer: sample j of every
   * channel is copied to the buffer, from byte `ptr` on.
   */
  method GatherFrame(halves: seq<array<Sample>>, ghost chans: seq<seq<Sample>>, j: nat, buffer: array<byte>, ptr: nat)
    returns (end: nat)
    requires SampleRow(halves, chans, j)
    requires ptr + |FrameBytes(chans, j, |chans|)| <= buffer.Length
    modifies buffer
    ensures end == ptr + |FrameBytes(chans, j, |chans|)|
    ensures buffer[..end] == old(buffer[..ptr]) + FrameBytes(chans, j, |chans|)
    ensures forall k :: end <= k < buffer.Length ==> buffer[k] == old(buffer[k])
  {
    ghost var prefix := buffer[..ptr];
    end := ptr;
    var c := 0;
    while c < |halves|
      invariant c <= |halves| && end <= buffer.Length
      invariant buffer[..end] == prefix + FrameBytes(chans, j, c)
      invariant forall k :: end <= k < buffer.Length ==> buffer[k] == old(buffer[k])
    {
      var sample := halves[c][j];
      FrameBytesPrefix(chans, j, c + 1, |chans|);
      assert FrameBytes(chans, j, c + 1) == FrameBytes(chans, j, c) + sample;
      CopySample(buffer, end, sample);
      end := end + |sample|;
      c := c + 1;
    }
  }

  /** What the halves hold lines up with their contents, sample j by sample j. */
  lemma RowOfContents(halves: seq<array<Sample>>, j: nat)
    requires HoldsFrames(Contents(halves), j + 1)
    ensures SampleRow(halves, Contents(halves), j)
  {
  }

  /**
   * The outer loop of MakeInterleavedBuffer: frame after frame is gathered
   * into the buffer, which is exactly large enough for all of them.
   */
  method GatherFrames(halves: seq<array<Sample>>, bufferSize: nat, buffer: array<byte>)
    requires HoldsFrames(Contents(halves), bufferSize)
    requires buffer.Length == |Flatten(Interleave(Contents(halves), bufferSize))|
    modifies buffer
    ensures buffer[..] == Flatten(Interleave(Contents(halves), bufferSize))
  {
    ghost var chans := Contents(halves);
    StreamBytesFlatten(chans, bufferSize);
    var ptr: nat := 0;
    var remaining: nat := bufferSize;
    while remaining > 0
      invariant remaining <= bufferSize && ptr <= buffer.Length
      invariant Contents(halves) == chans
      invariant buffer[..ptr] == StreamBytes(chans, bufferSize - remaining)
    {
      var j := bufferSize - remaining;
      StreamBytesPrefix(chans, j + 1, bufferSize);
      assert StreamBytes(chans, j + 1) == StreamBytes(chans, j) + FrameBytes(chans, j, |chans|);
      RowOfContents(halves, j);
      ptr := GatherFrame(halves, chans, j, buffer, ptr);
      assert buffer[..ptr] == StreamBytes(chans, j + 1);
      remaining := remaining - 1;
    }
    // The source's abort() on a misplaced write cursor cannot fire.
    assert buffer[..ptr] == StreamBytes(chans, bufferSize);
    assert ptr == buffer.Length;
    assert buffer[..] == buffer[..ptr];
  }

  /**
   * Interleaves the active half of every input channel into one buffer of
   * `bufferSize` frames.
   */
  method MakeInterleavedBuffer(bufferInfos: seq<BufferInfo>, sampleSize: nat, bufferSize: nat, doubleBufferIndex: nat)
    returns (interleaved: seq<byte>)
    requires doubleBufferIndex < 2
    requires Ready(Contents(ActiveHalves(Selected(bufferInfos, true), doubleBufferIndex)), sampleSize, bufferSize)
    ensures |interleaved| == bufferSize * (|Selected(bufferInfos, true)| * sampleSize)
    ensures interleaved == Flatten(Interleave(Contents(ActiveHalves(Selected(bufferInfos, true), doubleBufferIndex)), bufferSize))
  {
    var inputs := Selected(bufferInfos, true);
    var halves := ActiveHalves(inputs, doubleBufferIndex);
    InterleavedBytes(Contents(halves), sampleSize, bufferSize);
    var buffer := new byte[bufferSize * (|inputs| * sampleSize)];
    GatherFrames(halves, bufferSize, buffer);
    interleaved := buffer[..];
  }

  /**
   * One pass of the inner loop of CopyInterleavedBufferToASIO: the bytes of
   * frame j, found at byte `it`, go sample by sample to sample j of every
   * channel.
   */
  method ScatterFrame(interleaved: seq<byte>, it: nat, halves: seq<array<Sample>>, ghost chans: seq<seq<Sample>>, ghost frames: nat, j: nat, sampleSize: nat)
    returns (end: nat)
    requires DistinctHalves(halves) && RoomFor(halves, frames) && j < frames
    requires |halves| == |chans| && FrameIn(interleaved, it, chans, j, sampleSize)
    modifies halves
    ensures end == it + |FrameBytes(chans, j, |chans|)|
    ensures forall c, m :: 0 <= c < |halves| && 0 <= m < halves[c].Length ==>
      halves[c][m] == if m == j then chans[c][j] else old(halves[c][m])
  {
    end := it;
    var c := 0;
    while c < |halves|
      invariant c <= |halves| && end == it + |FrameBytes(chans, j, c)|
      invariant forall c', m :: 0 <= c' < |halves| && 0 <= m < halves[c'].Length ==>
        halves[c'][m] == if m == j && c' < c then chans[c'][j] else old(halves[c'][m])
    {
      FrameSampleAt(interleaved, it, chans, j, c);
      halves[c][j] := interleaved[end .. end + sampleSize];
      end := end + sampleSize;
      c := c + 1;
    }
  }

  /**
   * De-interleaves a buffer into the active half of every output channel.
   * The source aborts when the buffer is not a whole number of frames; this
   * is reported as `aborted`, with nothing written.
   */
  method CopyInterleavedBufferToASIO(interleaved: seq<byte>, bufferInfos: seq<BufferInfo>, sampleSize: nat, doubleBufferIndex: nat)
    returns (aborted: bool)
    requires Disjoint(bufferInfos) && doubleBufferIndex < 2
    requires |Selected(bufferInfos, false)| > 0 && sampleSize > 0
    requires RoomFor(ActiveHalves(Selected(bufferInfos, false), doubleBufferIndex),
                     |interleaved| / (|Selected(bufferInfos, false)| * sampleSize))
    modifies ActiveHalves(Selected(bufferInfos, false), doubleBufferIndex)
    ensures aborted <==> |interleaved| % (|Selected(bufferInfos, false)| * sampleSize) != 0
    ensures aborted ==> unchanged(ActiveHalves(Selected(bufferInfos, false), doubleBufferIndex))
    ensures !aborted ==>
      var n := |Selected(bufferInfos, false)|;
      var frames := |interleaved| / (n * sampleSize);
      var halves := ActiveHalves(Selected(bufferInfos, false), doubleBufferIndex);
      && frames * n <= |Chunks(interleaved, sampleSize)|
      && forall c, m :: 0 <= c < n && 0 <= m < halves[c].Length ==>
           halves[c][m] == if m < frames then Channels(Chunks(interleaved, sampleSize), n, frames)[c][m] else old(halves[c][m])
  {
    var outputs := Selected(bufferInfos, false);
    var n := |outputs|;
    if |interleaved| % (n * sampleSize) != 0 {
      return true;
    }
    aborted := false;
    var halves := ActiveHalves(outputs, doubleBufferIndex);
    SelectedDistinct(bufferInfos, false, doubleBufferIndex);
    ghost var frames := Deinterleaved(interleaved, n, sampleSize);
    ghost var chans := Channels(Chunks(interleaved, sampleSize), n, frames);
    ghost var offsets := StreamLayout(interleaved, chans, sampleSize, frames);
    ScatterFrames(interleaved, halves, chans, frames, offsets, sampleSize);
  }

  /**
   * The outer loop of CopyInterleavedBufferToASIO: frame after frame of the
   * buffer goes to the channels, until the buffer is used up.
   */
  method ScatterFrames(interleaved: seq<byte>, halves: seq<array<Sample>>, ghost chans: seq<seq<Sample>>, ghost frames: nat,
                       ghost offsets: seq<nat>, sampleSize: nat)
    requires DistinctHalves(halves) && RoomFor(halves, frames) && |halves| == |chans| && HoldsFrames(chans, frames)
    requires Layout(interleaved, chans, sampleSize, frames, offsets)
    modifies halves
    ensures forall c, m :: 0 <= c < |halves| && 0 <= m < halves[c].Length ==>
      halves[c][m] == if m < frames then chans[c][m] else old(halves[c][m])
  {
    var it := 0;
    var j := 0;
    while it < |interleaved|
      invariant j <= frames && it == offsets[j]
      invariant forall c, m :: 0 <= c < |halves| && 0 <= m < halves[c].Length ==>
        halves[c][m] == if m < j then chans[c][m] else old(halves[c][m])
      decreases frames - j
    {
      assert FrameAt(interleaved, chans, sampleSize, offsets, j);
      it := ScatterFrame(interleaved, it, halves, chans, frames, j, sampleSize);
      j := j + 1;
    }
    assert j < frames ==> FrameAt(interleaved, chans, sampleSize, offsets, j);
  }

  /**
   * Recording a block of input channels and playing the recording back on
   * the same number of output channels: the interleaved bytes are a whole
   * number of frames (no abort), and each output channel receives exactly
   * the samples of the input channel at the same position.
   */
  lemma TranscodeRoundTrip(chans: seq<seq<Sample>>, s: nat, frames: nat)
    requires |chans| > 0 && s > 0 && Ready(chans, s, frames)
    ensures var bytes := Flatten(Interleave(chans, frames));
      && |bytes| % (|chans| * s) == 0
      && |bytes| / (|chans| * s) == frames
      && frames * |chans| <= |Chunks(bytes, s)|
      && forall c :: 0 <= c < |chans| ==> ChannelOf(Chunks(bytes, s), |chans|, c, frames) == chans[c][..frames]
  {
    var xs := Interleave(chans, frames);
    InterleavedBytes(chans, s, frames);
    InterleaveLength(chans, frames);
    ChunksFlatten(xs, s);
    MulPos(|chans|, s);
    DivMulExact(frames, |chans| * s);
    InterleavedChannels(chans, frames);
  }
}
