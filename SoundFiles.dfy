/**
 * The test harness's sound files: the input file it plays to the driver's
 * output channels and the output file it records the driver's input
 * channels to (InputFile, OutputFile and the zero padding of a short read).
 *
 * libsndfile itself is not modelled. An open input file is its raw audio
 * bytes with a read cursor; sf_read_raw hands out at most `maxChunk` bytes
 * per call and stops for good at byte `readable`, where an I/O error
 * (reported by sf_error) cuts the file short when `readable` < |data|. An
 * open output file is the bytes written so far; sf_write_raw takes at most
 * `maxChunk` bytes per call and nothing once `capacity` bytes are written.
 */
module SoundFiles {
  import opened Base
  import opened Asio
  import opened SampleFormat

  /** libsndfile's SF_ERR_NO_ERROR. */
  const SF_ERR_NO_ERROR: int := 0

  /** The SF_INFO fields the harness reads or sets. */
  datatype SfInfo = SfInfo(samplerate: int, channels: int, format: SfFormat)

  /** Why InputFile::Validate rejects a file, in the order the checks run. */
  datatype ValidationError =
    | SampleRateMismatch(expectedRate: int, gotRate: int)
    | ChannelCountMismatch(expectedChannels: int, gotChannels: int)
    | UnrecognizedSampleType
    | SampleTypeMismatch(expectedType: SampleType, gotType: SampleType)

  /** InputFile::Validate: the file must match the session's rate, channel count and sample type. */
  function Validate(info: SfInfo, sampleRate: int, channels: int, sampleType: SampleType): Option<ValidationError> {
    if info.samplerate != sampleRate then Some(SampleRateMismatch(sampleRate, info.samplerate))
    else if info.channels != channels then Some(ChannelCountMismatch(channels, info.channels))
    else if SfFormatToASIOSampleType(info.format).None? then Some(UnrecognizedSampleType)
    else if SfFormatToASIOSampleType(info.format).value != sampleType then
      Some(SampleTypeMismatch(sampleType, SfFormatToASIOSampleType(info.format).value))
    else None
  }

  /**
   * A file passes validation exactly when its rate, channel count and sample
   * type all match; a failure reports the first mismatch, with the expected
   * value first and the file's value second.
   */
  lemma ValidateSpec(info: SfInfo, sampleRate: int, channels: int, sampleType: SampleType)
    ensures var r := Validate(info, sampleRate, channels, sampleType);
      && (r.None? <==>
            info.samplerate == sampleRate && info.channels == channels
            && SfFormatToASIOSampleType(info.format) == Some(sampleType))
      && (r == Some(SampleRateMismatch(sampleRate, info.samplerate)) <==> info.samplerate != sampleRate)
      && (r.Some? && r.value.ChannelCountMismatch? ==>
            info.samplerate == sampleRate && r.value == ChannelCountMismatch(channels, info.channels) && info.channels != channels)
      && (r == Some(UnrecognizedSampleType) ==>
            info.samplerate == sampleRate && info.channels == channels && SfFormatToASIOSampleType(info.format).None?)
      && (r.Some? && r.value.SampleTypeMismatch? ==>
            && info.samplerate == sampleRate && info.channels == channels
            && SfFormatToASIOSampleType(info.format) == Some(r.value.gotType)
            && r.value.expectedType == sampleType && r.value.gotType != sampleType)
  {
  }

  /** A file written for a big-endian sample type never validates against that type: it reads back little-endian. */
  lemma BigEndianFileRejected(info: SfInfo, t: SampleType)
    requires t in MsbTypes && ASIOSampleTypeToSfFormatType(t).Some?
    requires info.format == ASIOSampleTypeToSfFormatType(t).value
    ensures Validate(info, info.samplerate, info.channels, t) == Some(SampleTypeMismatch(t, LittleEndianOf(t)))
  {
    FormatRoundTrip(t);
  }

  /** std::vector<uint8_t>::resize: truncates, or extends with zero bytes. */
  function Resize(v: seq<byte>, n: nat): seq<byte> {
    if n <= |v| then v[..n] else v + seq(n - |v|, _ => 0 as byte)
  }

  /** Resizing keeps the bytes that fit and zero-fills the rest. */
  lemma ResizeSpec(v: seq<byte>, n: nat)
    ensures |Resize(v, n)| == n
    ensures forall k :: 0 <= k < n ==> Resize(v, n)[k] == if k < |v| then v[k] else 0
  {
  }

  /** Resizing to the current size changes nothing. */
  lemma ResizeSame(v: seq<byte>)
    ensures Resize(v, |v|) == v
  {
  }

  /**
   * What InputFile::Read(bytes) yields from cursor position `cursor`: the
   * requested bytes when they can be read, the rest of the file when it
   * ends cleanly first, and the error code when an I/O error comes first.
   */
  function ReadOutcome(data: seq<byte>, readable: nat, errorCode: int, cursor: nat, bytes: nat): Result<seq<byte>, int>
    requires cursor <= readable <= |data|
  {
    if cursor + bytes <= readable then Ok(data[cursor .. cursor + bytes])
    else if readable == |data| then Ok(data[cursor..])
    else Err(errorCode)
  }

  /**
   * A read returns at most the requested bytes, in file order from the
   * cursor; it is short only at a clean end of file; it fails only when an
   * I/O error comes before the requested bytes are in.
   */
  lemma ReadOutcomeSpec(data: seq<byte>, readable: nat, errorCode: int, cursor: nat, bytes: nat)
    requires cursor <= readable <= |data|
    ensures var r := ReadOutcome(data, readable, errorCode, cursor, bytes);
      && (r.Err? <==> cursor + bytes > readable && readable < |data|)
      && (r.Err? ==> r.error == errorCode)
      && (r.Ok? ==>
            && |r.value| <= bytes
            && cursor + |r.value| <= |data| && r.value == data[cursor .. cursor + |r.value|]
            && (|r.value| < bytes ==> cursor + |r.value| == |data|))
  {
  }

  /**
   * The caller of Read pads a short read with zeros to the full size, so the
   * transcoder always sees exactly `bytes` bytes: the file's bytes, then zeros.
   */
  lemma PaddedRead(data: seq<byte>, readable: nat, errorCode: int, cursor: nat, bytes: nat)
    requires cursor <= readable <= |data|
    requires ReadOutcome(data, readable, errorCode, cursor, bytes).Ok?
    ensures var got := ReadOutcome(data, readable, errorCode, cursor, bytes).value;
      var padded := Resize(got, bytes);
      && |padded| == bytes
      && padded[..|got|] == data[cursor .. cursor + |got|]
      && forall k :: |got| <= k < bytes ==> padded[k] == 0
  {
    var got := ReadOutcome(data, readable, errorCode, cursor, bytes).value;
    ReadOutcomeSpec(data, readable, errorCode, cursor, bytes);
    ResizeSpec(got, bytes);
  }

  /** An input sound file opened for reading. */
  class InputFile {
    const info: SfInfo
    const data: seq<byte>
    const readable: nat
    const maxChunk: nat
    const errorCode: int
    var cursor: nat

    ghost predicate Valid()
      reads this
    {
      && cursor <= readable <= |data| && maxChunk > 0
      && (readable < |data| ==> errorCode != SF_ERR_NO_ERROR)
    }

    constructor (info: SfInfo, data: seq<byte>, readable: nat, maxChunk: nat, errorCode: int)
      requires readable <= |data| && maxChunk > 0 && (readable < |data| ==> errorCode != SF_ERR_NO_ERROR)
      ensures Valid() && cursor == 0
      ensures this.info == info && this.data == data && this.readable == readable
      ensures this.maxChunk == maxChunk && this.errorCode == errorCode
    {
      this.info := info;
      this.data := data;
      this.readable := readable;
      this.maxChunk := maxChunk;
      this.errorCode := errorCode;
      cursor := 0;
    }

    /** InputFile::SampleRate */
    function SampleRate(): (rate: int)
      ensures rate == info.samplerate
    {
      info.samplerate
    }

    /** sf_read_raw: up to `count` bytes from the cursor, no more than one chunk, none past an I/O error. */
    method RawRead(count: nat) returns (got: int, bytes: seq<byte>)
      requires Valid()
      modifies this
      ensures Valid()
      ensures got == Min(count, Min(maxChunk, readable - old(cursor)))
      ensures cursor == old(cursor) + got && bytes == data[old(cursor) .. cursor]
    {
      got := Min(count, Min(maxChunk, readable - cursor));
      bytes := data[cursor .. cursor + got];
      cursor := cursor + got;
    }

    /** sf_error: the error that stopped reading, once reading has stopped at it. */
    function Error(): (code: int)
      reads this
      requires Valid()
      ensures code != SF_ERR_NO_ERROR <==> cursor == readable && readable < |data|
    {
      if cursor == readable && readable < |data| then errorCode else SF_ERR_NO_ERROR
    }

    /**
     * InputFile::Read: fills a buffer of `bytes` bytes with calls to
     * sf_read_raw; a call that reads nothing ends the read, cleanly (the
     * buffer is cut to what was read) or with the error sf_error reports.
     */
    method Read(bytes: nat) returns (r: Result<seq<byte>, int>)
      requires Valid()
      modifies this
      ensures Valid()
      ensures r == ReadOutcome(data, readable, errorCode, old(cursor), bytes)
      ensures cursor == if r.Ok? then old(cursor) + |r.value| else readable
    {
      var interleavedBuffer := new byte[bytes];
      var bufferIt: nat := 0;
      while bufferIt < bytes
        invariant Valid() && bufferIt <= bytes && cursor == old(cursor) + bufferIt
        invariant interleavedBuffer[..bufferIt] == data[old(cursor) .. cursor]
      {
        var bytesToRead := bytes - bufferIt;
        var bytesRead, chunk := RawRead(bytesToRead);
        if bytesRead <= 0 || bytesRead > bytesToRead {
          var sfError := Error();
          if sfError == SF_ERR_NO_ERROR {
            assert cursor == |data|;
            assert data[old(cursor) .. cursor] == data[old(cursor)..];
            return Ok(interleavedBuffer[..bufferIt]);
          }
          return Err(sfError);
        }
        ghost var before := interleavedBuffer[..bufferIt];
        CopyInto(interleavedBuffer, bufferIt, chunk);
        assert interleavedBuffer[..bufferIt + bytesRead] == before + chunk;
        assert data[old(cursor) .. cursor] == data[old(cursor) .. cursor - bytesRead] + data[cursor - bytesRead .. cursor];
        bufferIt := bufferIt + bytesRead;
      }
      assert interleavedBuffer[..] == interleavedBuffer[..bufferIt];
      return Ok(interleavedBuffer[..]);
    }
  }

  /** Writing `chunk` over the bytes of `buffer` from `at` on (what sf_read_raw does to the vector). */
  method CopyInto(buffer: array<byte>, at: nat, chunk: seq<byte>)
    requires at + |chunk| <= buffer.Length
    modifies buffer
    ensures buffer[..at + |chunk|] == old(buffer[..at]) + chunk
  {
    forall k | at <= k < at + |chunk| {
      buffer[k] := chunk[k - at];
    }
  }

  /** Why the output file cannot be created for a sample type. */
  datatype UnsupportedOutput = UnsupportedOutput(sampleType: SampleType)

  /** OutputFile::GetSfInfo: a WAVE_FORMAT_EXTENSIBLE file of the type's subformat and endianness. */
  function GetSfInfo(sampleRate: int, channels: int, sampleType: SampleType): Result<SfInfo, UnsupportedOutput> {
    var sfFormat := ASIOSampleTypeToSfFormatType(sampleType);
    if sfFormat.None? then Err(UnsupportedOutput(sampleType))
    else Ok(SfInfo(sampleRate, channels, SF_FORMAT_WAVEX | sfFormat.value))
  }

  /**
   * The output file exists for exactly the ten sample types with a format;
   * it is a WAVEX file with the session's rate and channel count, and reading
   * its format back gives the type (little-endian) the recording was made in.
   */
  lemma OutputFileFormat(sampleRate: int, channels: int, sampleType: SampleType)
    ensures GetSfInfo(sampleRate, channels, sampleType).Ok? <==> sampleType in MsbTypes || sampleType in LsbTypes
    ensures GetSfInfo(sampleRate, channels, sampleType).Ok? ==>
      var info := GetSfInfo(sampleRate, channels, sampleType).value;
      && info.samplerate == sampleRate && info.channels == channels
      && info.format & SF_FORMAT_TYPEMASK == SF_FORMAT_WAVEX
      && SfFormatToASIOSampleType(info.format) == Some(LittleEndianOf(sampleType))
  {
    OutputFormatDomain(sampleType);
    if sampleType in MsbTypes || sampleType in LsbTypes {
      OutputFormatNoContainer(sampleType);
      var f := ASIOSampleTypeToSfFormatType(sampleType).value;
      FormatRoundTrip(sampleType);
      WavexBits(f);
    }
  }

  /** The formats of the output table carry no container bits of their own. */
  lemma OutputFormatNoContainer(t: SampleType)
    requires ASIOSampleTypeToSfFormatType(t).Some?
    ensures ASIOSampleTypeToSfFormatType(t).value & SF_FORMAT_TYPEMASK == 0
  {
    OutputFormatCases(t);
  }

  /** The container bits of an output format are WAVEX's, and its subformat bits are left alone. */
  lemma WavexBits(f: SfFormat)
    requires f & SF_FORMAT_TYPEMASK == 0
    ensures (SF_FORMAT_WAVEX | f) & SF_FORMAT_TYPEMASK == SF_FORMAT_WAVEX
    ensures SfFormatToASIOSampleType(SF_FORMAT_WAVEX | f) == SfFormatToASIOSampleType(f)
  {
    assert (SF_FORMAT_WAVEX | f) & SF_FORMAT_SUBMASK == f & SF_FORMAT_SUBMASK;
    InputFormatIgnoresUpperBits(SF_FORMAT_WAVEX | f, f);
  }

  /** An output sound file opened for writing. */
  class OutputFile {
    const info: SfInfo
    const capacity: nat
    const maxChunk: nat
    var written: seq<byte>

    ghost predicate Valid()
      reads this
    {
      |written| <= capacity && maxChunk > 0
    }

    constructor (info: SfInfo, capacity: nat, maxChunk: nat)
      requires maxChunk > 0
      ensures Valid() && written == []
      ensures this.info == info && this.capacity == capacity && this.maxChunk == maxChunk
    {
      this.info := info;
      this.capacity := capacity;
      this.maxChunk := maxChunk;
      written := [];
    }

    /** sf_write_raw: takes up to one chunk of `bytes`, and nothing once the file is full. */
    method RawWrite(bytes: seq<byte>) returns (got: int)
      requires Valid()
      modifies this
      ensures Valid()
      ensures got == Min(|bytes|, Min(maxChunk, capacity - |old(written)|))
      ensures written == old(written) + bytes[..got]
    {
      got := Min(|bytes|, Min(maxChunk, capacity - |written|));
      written := written + bytes[..got];
    }

    /**
     * OutputFile::Write: hands the buffer to sf_write_raw until all of it is
     * written; a call that writes nothing fails the write, with what was
     * written until then left in the file.
     */
    method Write(interleavedBuffer: seq<byte>) returns (ok: bool)
      requires Valid()
      modifies this
      ensures Valid()
      ensures ok <==> |old(written)| + |interleavedBuffer| <= capacity
      ensures written == old(written) + interleavedBuffer[..Min(|interleavedBuffer|, capacity - |old(written)|)]
    {
      var bufferIt: nat := 0;
      while bufferIt < |interleavedBuffer|
        invariant Valid() && bufferIt <= |interleavedBuffer|
        invariant |written| == |old(written)| + bufferIt
        invariant written == old(written) + interleavedBuffer[..bufferIt]
      {
        var bytesToWrite := |interleavedBuffer| - bufferIt;
        var bytesWritten := RawWrite(interleavedBuffer[bufferIt..]);
        if bytesWritten <= 0 || bytesWritten > bytesToWrite {
          return false;
        }
        assert interleavedBuffer[..bufferIt + bytesWritten] == interleavedBuffer[..bufferIt] + interleavedBuffer[bufferIt..][..bytesWritten];
        bufferIt := bufferIt + bytesWritten;
      }
      assert interleavedBuffer[..bufferIt] == interleavedBuffer;
      return true;
    }
  }
}
