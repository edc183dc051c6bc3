/*
 * The test harness's bufferSwitch callback: on every switch it records the
 * half the driver filled from the inputs into the output file, plays the
 * next block of the input file into the half the driver will send to the
 * outputs, and counts the switch; any exception on the way fails the run.
 */
module Callback {
  import opened Base
  import opened Asio
  import opened Arith
  import opened Interleaving
  import opened Transcoder
  import opened SoundFiles
  import opened RunControl

  /** The number of bytes read from the input file per switch: preferred frames of every output channel. */
  function ReadSize(preferred: nat, outputChannels: nat, sampleSize: nat): nat {
    preferred * outputChannels * sampleSize
  }

  /**
   * A read padded with zeros to the read size splits into exactly `preferred`
   * whole frames, so the copy to the driver never rejects it.
   */
  lemma PaddedReadFrames(got: seq<byte>, preferred: nat, outputChannels: nat, sampleSize: nat)
    requires outputChannels > 0 && sampleSize > 0
    ensures var padded := Resize(got, ReadSize(preferred, outputChannels, sampleSize));
      && |padded| % (outputChannels * sampleSize) == 0
      && |padded| / (outputChannels * sampleSize) == preferred
  {
    MulAssoc(preferred, outputChannels, sampleSize);
    MulPos(outputChannels, sampleSize);
    DivMulExact(preferred, outputChannels * sampleSize);
  }

  /** The block written to the output file: the filled input halves, interleaved. */
  ghost function RecordedBlock(bufferInfos: seq<BufferInfo>, preferred: nat, doubleBufferIndex: nat): seq<byte>
    requires doubleBufferIndex < 2
    requires HoldsFrames(Contents(ActiveHalves(Selected(bufferInfos, true), doubleBufferIndex)), preferred)
    reads ActiveHalves(Selected(bufferInfos, true), doubleBufferIndex)
  {
    Flatten(Interleave(Contents(ActiveHalves(Selected(bufferInfos, true), doubleBufferIndex)), preferred))
  }

  /**
   * The output half of a switch: the filled input halves, interleaved, are
   * appended to the output file; `ok` is false when they do not all fit.
   */
  method RecordInputs(outputFile: OutputFile, sampleSize: nat, bufferInfos: seq<BufferInfo>, preferred: nat, doubleBufferIndex: nat)
    returns (ok: bool)
    requires outputFile.Valid() && doubleBufferIndex < 2
    requires Ready(Contents(ActiveHalves(Selected(bufferInfos, true), doubleBufferIndex)), sampleSize, preferred)
    modifies outputFile
    ensures outputFile.Valid()
    ensures var block := old(RecordedBlock(bufferInfos, preferred, doubleBufferIndex));
      && (ok <==> |old(outputFile.written)| + |block| <= outputFile.capacity)
      && outputFile.written == old(outputFile.written) + block[..Min(|block|, outputFile.capacity - |old(outputFile.written)|)]
  {
    ghost var block := RecordedBlock(bufferInfos, preferred, doubleBufferIndex);
    ghost var before := outputFile.written;
    ghost var halves := ActiveHalves(Selected(bufferInfos, true), doubleBufferIndex);
    ghost var chans := Contents(halves);
    var interleaved := MakeInterleavedBuffer(bufferInfos, sampleSize, preferred, doubleBufferIndex);
    assert halves == ActiveHalves(Selected(bufferInfos, true), doubleBufferIndex);
    assert forall i :: 0 <= i < |halves| ==> halves[i][..] == chans[i];
    assert Contents(halves) == chans;
    assert interleaved == block;
    ok := outputFile.Write(interleaved);
    assert outputFile.written == before + block[..Min(|block|, outputFile.capacity - |before|)];
  }

  /**
   * The state playing the input file leaves behind. After a read error the
   * cursor is at the readable end and the halves are untouched; otherwise
   * the cursor has moved past the bytes read, and the first `preferred`
   * samples of every output half hold that channel's samples of the read,
   * padded with zeros, while the rest of each half keeps its old samples.
   */
  twostate predicate Played(inputFile: InputFile, sampleSize: nat, bufferInfos: seq<BufferInfo>,
                            preferred: nat, outputChannels: nat, doubleBufferIndex: nat)
    requires old(inputFile.Valid())
    requires doubleBufferIndex < 2 && outputChannels == |Selected(bufferInfos, false)| && sampleSize > 0
    requires var halves := ActiveHalves(Selected(bufferInfos, false), doubleBufferIndex);
      forall c :: 0 <= c < |halves| ==> old(allocated(halves[c]))
    reads inputFile, ActiveHalves(Selected(bufferInfos, false), doubleBufferIndex)
  {
    var readSize := ReadSize(preferred, outputChannels, sampleSize);
    var got := ReadOutcome(inputFile.data, inputFile.readable, inputFile.errorCode, old(inputFile.cursor), readSize);
    var halves := ActiveHalves(Selected(bufferInfos, false), doubleBufferIndex);
    if got.Err? then
      && inputFile.cursor == inputFile.readable
      && forall c, m :: 0 <= c < outputChannels && 0 <= m < halves[c].Length ==> halves[c][m] == old(halves[c][m])
    else
      && inputFile.cursor == old(inputFile.cursor) + |got.value|
      && preferred * outputChannels <= |Chunks(Resize(got.value, readSize), sampleSize)|
      && forall c, m :: 0 <= c < outputChannels && 0 <= m < halves[c].Length ==>
           halves[c][m] == if m < preferred
                           then Channels(Chunks(Resize(got.value, readSize), sampleSize), outputChannels, preferred)[c][m]
                           else old(halves[c][m])
  }

  /**
   * The input half of a switch: the next block of the input file is read,
   * padded with zeros and copied into the halves the driver plays; `ok` is
   * false on a read error, and then the halves are untouched.
   */
  method PlayInputFile(inputFile: InputFile, sampleSize: nat, bufferInfos: seq<BufferInfo>,
                       preferred: nat, outputChannels: nat, doubleBufferIndex: nat)
    returns (ok: bool)
    requires inputFile.Valid() && Disjoint(bufferInfos) && doubleBufferIndex < 2
    requires outputChannels == |Selected(bufferInfos, false)| > 0 && sampleSize > 0
    requires RoomFor(ActiveHalves(Selected(bufferInfos, false), doubleBufferIndex), preferred)
    modifies inputFile, ActiveHalves(Selected(bufferInfos, false), doubleBufferIndex)
    ensures inputFile.Valid()
    ensures ok <==> ReadOutcome(inputFile.data, inputFile.readable, inputFile.errorCode, old(inputFile.cursor),
                                ReadSize(preferred, outputChannels, sampleSize)).Ok?
    ensures !ok ==> unchanged(ActiveHalves(Selected(bufferInfos, false), doubleBufferIndex))
    ensures Played(inputFile, sampleSize, bufferInfos, preferred, outputChannels, doubleBufferIndex)
  {
    var readSize := ReadSize(preferred, outputChannels, sampleSize);
    ghost var halves := ActiveHalves(Selected(bufferInfos, false), doubleBufferIndex);
    assert forall i :: 0 <= i < |halves| ==> allocated(halves[i]);
    var r := inputFile.Read(readSize);
    assert unchanged(halves);
    if r.Err? {
      return false;
    }
    var interleaved := Resize(r.value, readSize);
    PaddedReadFrames(r.value, preferred, outputChannels, sampleSize);
    var aborted := CopyInterleavedBufferToASIO(interleaved, bufferInfos, sampleSize, doubleBufferIndex);
    assert !aborted;
    ok := true;
  }

  /**
   * One buffer switch. `threw` tells whether the callback body threw; the
   * run state then advances exactly as `Step` says. A write that does not
   * fit the output file throws before the input file is touched; a read
   * error throws before the output halves are touched.
   */
  method BufferSwitch(state: RunState,
                      outputFile: Option<OutputFile>, outputFileSampleSize: nat,
                      inputFile: Option<InputFile>, inputFileSampleSize: nat,
                      bufferInfos: seq<BufferInfo>, preferred: nat, outputChannels: nat,
                      doubleBufferIndex: nat)
    returns (threw: bool)
    requires Disjoint(bufferInfos) && doubleBufferIndex < 2
    requires outputFile.Some? ==>
      && outputFile.value.Valid()
      && Ready(Contents(ActiveHalves(Selected(bufferInfos, true), doubleBufferIndex)), outputFileSampleSize, preferred)
    requires inputFile.Some? ==>
      && inputFile.value.Valid()
      && outputChannels == |Selected(bufferInfos, false)| > 0 && inputFileSampleSize > 0
      && RoomFor(ActiveHalves(Selected(bufferInfos, false), doubleBufferIndex), preferred)
    modifies state
    modifies if outputFile.Some? then {outputFile.value} else {}
    modifies if inputFile.Some? then {inputFile.value} else {}
    modifies ActiveHalves(Selected(bufferInfos, false), doubleBufferIndex)
    ensures (state.outcome, state.bufferSwitchCount) == Step(old(state.outcome), old(state.bufferSwitchCount), threw)
    ensures outputFile.Some? ==> outputFile.value.Valid()
    ensures inputFile.Some? ==> inputFile.value.Valid()
    ensures var writeFailed := outputFile.Some? &&
              |old(outputFile.value.written)| + |old(RecordedBlock(bufferInfos, preferred, doubleBufferIndex))| > outputFile.value.capacity;
      var readFailed := inputFile.Some? &&
              var f := inputFile.value;
              ReadOutcome(f.data, f.readable, f.errorCode, old(f.cursor), ReadSize(preferred, outputChannels, inputFileSampleSize)).Err?;
      && (threw <==> writeFailed || readFailed)
      && (writeFailed && inputFile.Some? ==> unchanged(inputFile.value))
      && (inputFile.None? || writeFailed ==> unchanged(ActiveHalves(Selected(bufferInfos, false), doubleBufferIndex)))
      && (inputFile.Some? && !writeFailed ==>
            Played(inputFile.value, inputFileSampleSize, bufferInfos, preferred, outputChannels, doubleBufferIndex))
    ensures outputFile.Some? ==>
      var block := old(RecordedBlock(bufferInfos, preferred, doubleBufferIndex));
      var before := old(outputFile.value.written);
      outputFile.value.written == before + block[..Min(|block|, outputFile.value.capacity - |before|)]
  {
    ghost var halves := ActiveHalves(Selected(bufferInfos, false), doubleBufferIndex);
    assert forall i :: 0 <= i < |halves| ==> allocated(halves[i]);
    if outputFile.Some? {
      var ok := RecordInputs(outputFile.value, outputFileSampleSize, bufferInfos, preferred, doubleBufferIndex);
      assert unchanged(halves);
      if !ok {
        var _ := state.SetOutcome(Failure);
        assert unchanged(halves);
        return true;
      }
    }
    threw := PlayAndCount(state, inputFile, inputFileSampleSize, bufferInfos, preferred, outputChannels, doubleBufferIndex);
  }

  /**
   * The rest of a switch once the output file, if any, took its block: play
   * the input file, if any, and count the switch, or fail the run on a read
   * error.
   */
  method PlayAndCount(state: RunState, inputFile: Option<InputFile>, inputFileSampleSize: nat,
                      bufferInfos: seq<BufferInfo>, preferred: nat, outputChannels: nat, doubleBufferIndex: nat)
    returns (threw: bool)
    requires Disjoint(bufferInfos) && doubleBufferIndex < 2
    requires inputFile.Some? ==>
      && inputFile.value.Valid()
      && outputChannels == |Selected(bufferInfos, false)| > 0 && inputFileSampleSize > 0
      && RoomFor(ActiveHalves(Selected(bufferInfos, false), doubleBufferIndex), preferred)
    modifies state
    modifies if inputFile.Some? then {inputFile.value} else {}
    modifies ActiveHalves(Selected(bufferInfos, false), doubleBufferIndex)
    ensures (state.outcome, state.bufferSwitchCount) == Step(old(state.outcome), old(state.bufferSwitchCount), threw)
    ensures inputFile.Some? ==> inputFile.value.Valid()
    ensures threw <==>
      && inputFile.Some?
      && var f := inputFile.value;
      && ReadOutcome(f.data, f.readable, f.errorCode, old(f.cursor), ReadSize(preferred, outputChannels, inputFileSampleSize)).Err?
    ensures inputFile.None? || threw ==> unchanged(ActiveHalves(Selected(bufferInfos, false), doubleBufferIndex))
    ensures inputFile.Some? ==>
      Played(inputFile.value, inputFileSampleSize, bufferInfos, preferred, outputChannels, doubleBufferIndex)
  {
    ghost var halves := ActiveHalves(Selected(bufferInfos, false), doubleBufferIndex);
    if inputFile.Some? {
      var ok := PlayInputFile(inputFile.value, inputFileSampleSize, bufferInfos, preferred, outputChannels, doubleBufferIndex);
      if !ok {
        var _ := state.SetOutcome(Failure);
        assert unchanged(halves);
        return true;
      }
    }
    state.IncrementBufferSwitchCount();
    assert inputFile.None? ==> unchanged(halves);
    threw := false;
  }
}
