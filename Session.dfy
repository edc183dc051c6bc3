/*
 * The session the test harness runs against the driver (RunInitialized):
 * initialise, count channels, probe the standard sample rates, query every
 * channel, settle the input and output files and the target rate, create
 * the buffers, run until 30 buffer switches or a failure, and stop.
 *
 * The driver is an oracle: a Driver object fixes, once and for all, what
 * each ASIO call answers, and records the calls the session makes.
 */
module Session {
  import opened Base
  import opened Asio
  import opened SampleFormat
  import opened Negotiation
  import opened SoundFiles
  import opened RunControl

  /** A sample width in bytes, as GetASIOSampleSize reports it for the types it knows. */
  type Width = n: nat | n > 0 witness 1

  /** The four values ASIOGetBufferSize reports. */
  datatype BufferSize = BufferSize(min: int, max: int, preferred: int, granularity: int)

  /** An ASIOBufferInfo as the harness fills it in before asking for buffers. */
  datatype BufferRequest = BufferRequest(isInput: bool, channelNum: int)

  /** The ASIO host calls the session makes. */
  datatype Call =
    | ASIOInit
    | ASIOGetChannels
    | ASIOGetSampleRate
    | ASIOCanSampleRate(rate: int)
    | ASIOSetSampleRate(rate: int)
    | ASIOGetChannelInfo(channel: int, isInput: bool)
    | ASIOGetBufferSize
    | ASIOOutputReady
    | ASIOCreateBuffers(requests: seq<BufferRequest>, bufferSize: int)
    | ASIODisposeBuffers
    | ASIOGetLatencies
    | ASIOStart
    | ASIOStop

  /**
   * The driver as the session sees it. Every answer is fixed at
   * construction; the only driver state is the rate it reports, which a
   * successful rate change sets to `rateAfterSet` of the requested rate.
   */
  class Driver {
    const initOk: bool
    const channelCounts: Option<(int, int)>
    const supportedRates: set<int>
    const settableRates: set<int>
    const rateAfterSet: int -> Option<int>
    const channelInfo: (int, bool) -> Option<ChannelInfo>
    const bufferSize: Option<BufferSize>
    const createOk: bool
    const startOk: bool
    const stopOk: bool
    var reportedRate: Option<int>
    var calls: seq<Call>

    constructor (initOk: bool, channelCounts: Option<(int, int)>, initialRate: Option<int>,
                 supportedRates: set<int>, settableRates: set<int>, rateAfterSet: int -> Option<int>,
                 channelInfo: (int, bool) -> Option<ChannelInfo>, bufferSize: Option<BufferSize>,
                 createOk: bool, startOk: bool, stopOk: bool)
      ensures this.initOk == initOk && this.channelCounts == channelCounts && reportedRate == initialRate
      ensures this.supportedRates == supportedRates && this.settableRates == settableRates
      ensures this.rateAfterSet == rateAfterSet && this.channelInfo == channelInfo && this.bufferSize == bufferSize
      ensures this.createOk == createOk && this.startOk == startOk && this.stopOk == stopOk
      ensures calls == []
    {
      this.initOk := initOk;
      this.channelCounts := channelCounts;
      this.supportedRates := supportedRates;
      this.settableRates := settableRates;
      this.rateAfterSet := rateAfterSet;
      this.channelInfo := channelInfo;
      this.bufferSize := bufferSize;
      this.createOk := createOk;
      this.startOk := startOk;
      this.stopOk := stopOk;
      reportedRate := initialRate;
      calls := [];
    }

    method Init() returns (ok: bool)
      modifies this
      ensures ok == initOk && calls == old(calls) + [ASIOInit] && reportedRate == old(reportedRate)
    {
      calls := calls + [ASIOInit];
      ok := initOk;
    }

    method GetChannels() returns (counts: Option<(int, int)>)
      modifies this
      ensures counts == channelCounts && calls == old(calls) + [ASIOGetChannels] && reportedRate == old(reportedRate)
    {
      calls := calls + [ASIOGetChannels];
      counts := channelCounts;
    }

    method GetSampleRate() returns (rate: Option<int>)
      modifies this
      ensures rate == reportedRate == old(reportedRate) && calls == old(calls) + [ASIOGetSampleRate]
    {
      calls := calls + [ASIOGetSampleRate];
      rate := reportedRate;
    }

    method CanSampleRate(rate: int) returns (ok: bool)
      modifies this
      ensures ok <==> rate in supportedRates
      ensures calls == old(calls) + [ASIOCanSampleRate(rate)] && reportedRate == old(reportedRate)
    {
      calls := calls + [ASIOCanSampleRate(rate)];
      ok := rate in supportedRates;
    }

    method SetSampleRate(rate: int) returns (ok: bool)
      modifies this
      ensures ok <==> rate in settableRates
      ensures calls == old(calls) + [ASIOSetSampleRate(rate)]
      ensures reportedRate == if ok then rateAfterSet(rate) else old(reportedRate)
    {
      calls := calls + [ASIOSetSampleRate(rate)];
      ok := rate in settableRates;
      if ok {
        reportedRate := rateAfterSet(rate);
      }
    }

    method GetChannelInfo(channel: int, isInput: bool) returns (info: Option<ChannelInfo>)
      modifies this
      ensures info == channelInfo(channel, isInput)
      ensures calls == old(calls) + [ASIOGetChannelInfo(channel, isInput)] && reportedRate == old(reportedRate)
    {
      calls := calls + [ASIOGetChannelInfo(channel, isInput)];
      info := channelInfo(channel, isInput);
    }

    method GetBufferSize() returns (size: Option<BufferSize>)
      modifies this
      ensures size == bufferSize && calls == old(calls) + [ASIOGetBufferSize] && reportedRate == old(reportedRate)
    {
      calls := calls + [ASIOGetBufferSize];
      size := bufferSize;
    }

    /** The answer to outputReady is ignored by the session, so it is not modelled. */
    method OutputReady()
      modifies this
      ensures calls == old(calls) + [ASIOOutputReady] && reportedRate == old(reportedRate)
    {
      calls := calls + [ASIOOutputReady];
    }

    method CreateBuffers(requests: seq<BufferRequest>, bufferSize: int) returns (ok: bool)
      modifies this
      ensures ok == createOk
      ensures calls == old(calls) + [ASIOCreateBuffers(requests, bufferSize)] && reportedRate == old(reportedRate)
    {
      calls := calls + [ASIOCreateBuffers(requests, bufferSize)];
      ok := createOk;
    }

    method DisposeBuffers()
      modifies this
      ensures calls == old(calls) + [ASIODisposeBuffers] && reportedRate == old(reportedRate)
    {
      calls := calls + [ASIODisposeBuffers];
    }

    method GetLatencies()
      modifies this
      ensures calls == old(calls) + [ASIOGetLatencies] && reportedRate == old(reportedRate)
    {
      calls := calls + [ASIOGetLatencies];
    }

    method Start() returns (ok: bool)
      modifies this
      ensures ok == startOk && calls == old(calls) + [ASIOStart] && reportedRate == old(reportedRate)
    {
      calls := calls + [ASIOStart];
      ok := startOk;
    }

    method Stop() returns (ok: bool)
      modifies this
      ensures ok == stopOk && calls == old(calls) + [ASIOStop] && reportedRate == old(reportedRate)
    {
      calls := calls + [ASIOStop];
      ok := stopOk;
    }
  }

  /** The harness's GetChannels: a failed query counts as no channels at all. */
  function ChannelCounts(d: Driver): (int, int) {
    if d.channelCounts.Some? then d.channelCounts.value else (0, 0)
  }

  /*
   * Rate probe.
   */

  /** The rates the session probes, in order. */
  const ProbeRates: seq<int> := [44100, 48000, 96000, 192000]

  /** A probed rate passes when the driver either declines it or sets it and reports it back exactly. */
  predicate ProbeHolds(d: Driver, rate: int) {
    rate in d.supportedRates ==> rate in d.settableRates && d.rateAfterSet(rate) == Some(rate)
  }

  /** The first rate of `rates` whose probe fails, if any. */
  function FirstProbeFailure(d: Driver, rates: seq<int>): Option<int> {
    if rates == [] then None
    else if !ProbeHolds(d, rates[0]) then Some(rates[0])
    else FirstProbeFailure(d, rates[1..])
  }

  /**
   * The probe fails exactly when some rate fails, and then it names the
   * first rate that fails.
   */
  lemma {:induction false} FirstProbeFailureSpec(d: Driver, rates: seq<int>)
    ensures var r := FirstProbeFailure(d, rates);
      && (r.None? <==> forall i :: 0 <= i < |rates| ==> ProbeHolds(d, rates[i]))
      && (r.Some? ==> exists i :: 0 <= i < |rates| && rates[i] == r.value && !ProbeHolds(d, rates[i])
                        && forall j :: 0 <= j < i ==> ProbeHolds(d, rates[j]))
  {
    if rates != [] && ProbeHolds(d, rates[0]) {
      FirstProbeFailureSpec(d, rates[1..]);
      var r := FirstProbeFailure(d, rates[1..]);
      if r.Some? {
        var i :| 0 <= i < |rates[1..]| && rates[1..][i] == r.value && !ProbeHolds(d, rates[1..][i])
                 && forall j :: 0 <= j < i ==> ProbeHolds(d, rates[1..][j]);
        assert rates[i + 1] == r.value && !ProbeHolds(d, rates[i + 1]);
        assert forall j :: 0 <= j < i + 1 ==> ProbeHolds(d, rates[j]) by {
          forall j | 0 <= j < i + 1 ensures ProbeHolds(d, rates[j]) {
            if j > 0 { assert rates[j] == rates[1..][j - 1]; }
          }
        }
      } else {
        forall i | 0 <= i < |rates| ensures ProbeHolds(d, rates[i]) {
          if i > 0 { assert rates[i] == rates[1..][i - 1]; }
        }
      }
    }
  }

  /**
   * The probe loop: every rate the driver accepts must be set and read back
   * exactly; the first one that is not ends the session.
   */
  method ProbeSampleRates(d: Driver) returns (failed: Option<int>)
    modifies d
    ensures failed == FirstProbeFailure(d, ProbeRates)
  {
    var i := 0;
    while i < |ProbeRates|
      invariant i <= |ProbeRates|
      invariant FirstProbeFailure(d, ProbeRates[i..]) == FirstProbeFailure(d, ProbeRates)
    {
      var rate := ProbeRates[i];
      assert ProbeRates[i..][0] == rate && ProbeRates[i..][1..] == ProbeRates[i + 1..];
      var accepted := d.CanSampleRate(rate);
      if accepted {
        var changed := d.SetSampleRate(rate);
        if !changed {
          return Some(rate);
        }
        var readBack := d.GetSampleRate();
        if readBack != Some(rate) {
          return Some(rate);
        }
      }
      i := i + 1;
    }
    failed := None;
  }

  /*
   * Channel queries.
   */

  /** A count the harness loops up to: a negative count runs no iteration. */
  function LoopCount(count: int): nat {
    if count < 0 then 0 else count
  }

  /** The answers the driver gives for channels 0 .. n-1 of one direction, skipping the channels it refuses. */
  function Answered(d: Driver, isInput: bool, n: nat): seq<ChannelInfo> {
    if n == 0 then []
    else Answered(d, isInput, n - 1) + (if d.channelInfo(n - 1, isInput).Some? then [d.channelInfo(n - 1, isInput).value] else [])
  }

  /** All the answers GetAllChannelInfo collects: the inputs first, then the outputs. */
  function AllAnswered(d: Driver, counts: (int, int)): seq<ChannelInfo> {
    Answered(d, true, LoopCount(counts.0)) + Answered(d, false, LoopCount(counts.1))
  }

  /**
   * Every collected answer is the driver's answer for one of the queried
   * channels, and all n channels answered exactly when n answers came back.
   */
  lemma {:induction false} AnsweredSpec(d: Driver, isInput: bool, n: nat)
    ensures |Answered(d, isInput, n)| <= n
    ensures |Answered(d, isInput, n)| == n <==> forall k :: 0 <= k < n ==> d.channelInfo(k, isInput).Some?
    ensures forall info :: info in Answered(d, isInput, n) ==>
              exists k :: 0 <= k < n && d.channelInfo(k, isInput) == Some(info)
  {
    if n > 0 {
      AnsweredSpec(d, isInput, n - 1);
      var prev := Answered(d, isInput, n - 1);
      var last := d.channelInfo(n - 1, isInput);
      assert Answered(d, isInput, n) == prev + (if last.Some? then [last.value] else []);
      if last.None? {
        assert |Answered(d, isInput, n)| < n;
      }
      forall info | info in Answered(d, isInput, n)
        ensures exists k :: 0 <= k < n && d.channelInfo(k, isInput) == Some(info)
      {
        if info !in prev {
          assert d.channelInfo(n - 1, isInput) == Some(info);
        }
      }
    }
  }

  /**
   * With non-negative channel counts, the count check of the session passes
   * exactly when the driver describes every channel of both directions.
   */
  lemma ChannelCheckSpec(d: Driver, counts: (int, int))
    requires counts.0 >= 0 && counts.1 >= 0
    ensures |AllAnswered(d, counts)| == counts.0 + counts.1 <==>
      && (forall k :: 0 <= k < counts.0 ==> d.channelInfo(k, true).Some?)
      && (forall k :: 0 <= k < counts.1 ==> d.channelInfo(k, false).Some?)
  {
    AnsweredSpec(d, true, counts.0);
    AnsweredSpec(d, false, counts.1);
  }

  /** One of GetAllChannelInfo's loops: query channels 0 .. count-1 of one direction. */
  method QueryChannels(d: Driver, count: int, isInput: bool) returns (infos: seq<ChannelInfo>)
    modifies d
    ensures infos == Answered(d, isInput, LoopCount(count))
    ensures d.reportedRate == old(d.reportedRate)
  {
    infos := [];
    var channel := 0;
    while channel < count
      invariant 0 <= channel <= LoopCount(count)
      invariant infos == Answered(d, isInput, channel)
      invariant d.reportedRate == old(d.reportedRate)
    {
      var info := d.GetChannelInfo(channel, isInput);
      if info.Some? {
        infos := infos + [info.value];
      }
      channel := channel + 1;
    }
  }

  /** GetAllChannelInfo: the answers for every input channel, then for every output channel. */
  method GetAllChannelInfo(d: Driver, counts: (int, int)) returns (infos: seq<ChannelInfo>)
    modifies d
    ensures infos == AllAnswered(d, counts)
    ensures d.reportedRate == old(d.reportedRate)
  {
    var inputs := QueryChannels(d, counts.0, true);
    var outputs := QueryChannels(d, counts.1, false);
    infos := inputs + outputs;
  }

  /*
   * Buffer requests.
   */

  /** The requests CreateBuffers builds: input channels 0 .. first-1, then output channels 0 .. second-1. */
  function Requests(counts: (int, int)): (r: seq<BufferRequest>)
    ensures |r| == LoopCount(counts.0) + LoopCount(counts.1)
  {
    seq(LoopCount(counts.0), i => BufferRequest(true, i)) + seq(LoopCount(counts.1), i => BufferRequest(false, i))
  }

  /** Build the request list with the harness's two loops. */
  method BuildRequests(counts: (int, int)) returns (requests: seq<BufferRequest>)
    ensures requests == Requests(counts)
  {
    requests := [];
    var channel := 0;
    while channel < counts.0
      invariant 0 <= channel <= LoopCount(counts.0)
      invariant requests == seq(channel, i => BufferRequest(true, i))
    {
      requests := requests + [BufferRequest(true, channel)];
      channel := channel + 1;
    }
    var inputs := requests;
    channel := 0;
    while channel < counts.1
      invariant 0 <= channel <= LoopCount(counts.1)
      invariant requests == inputs + seq(channel, i => BufferRequest(false, i))
    {
      requests := requests + [BufferRequest(false, channel)];
      channel := channel + 1;
    }
  }

  /**
   * Once the channel counts are not both zero and the count check has
   * passed, the request list is never empty: the session's later check for
   * an empty buffer list can only fire when the driver refuses the buffers.
   */
  lemma RequestsNonEmpty(d: Driver, counts: (int, int))
    requires counts != (0, 0)
    requires |AllAnswered(d, counts)| == counts.0 + counts.1
    ensures Requests(counts) != []
  {
    if counts.0 <= 0 && counts.1 <= 0 {
      assert |AllAnswered(d, counts)| >= 0;
    }
  }

  /*
   * Files and the target rate.
   */

  /** Why the session cannot use a configured file; each ends the run with an exception. */
  datatype FileProblem =
    | NoCommonType(negotiation: NegotiationError)
    | NoSampleSize(sampleType: SampleType)
    | CannotOpen
    | Mismatch(mismatch: ValidationError)
    | UnsupportedType(sampleType: SampleType)

  /** A configured input file: whether it opens, and the SF_INFO it reports. */
  datatype InputSource = InputSource(opens: bool, info: SfInfo)

  /** A configured output file: whether it can be created. */
  datatype OutputTarget = OutputTarget(opens: bool)

  /** The harness's configuration (the command line, already parsed). */
  datatype Config = Config(sampleRate: Option<int>, inputFile: Option<InputSource>, outputFile: Option<OutputTarget>)

  /**
   * The input file step: the output channels must share a sample type of
   * known size, the file must open, and it must match the rate (the
   * configured one, else its own), the output channel count and that type.
   * The result is the sample size used to play the file.
   */
  function InputFileCheck(src: InputSource, infos: seq<ChannelInfo>, outputs: int, configRate: Option<int>,
                          sampleSize: SampleType -> Option<Width>): Result<Width, FileProblem>
  {
    var t := GetCommonSampleType(infos, false);
    if t.Err? then Err(NoCommonType(t.error))
    else if sampleSize(t.value).None? then Err(NoSampleSize(t.value))
    else if !src.opens then Err(CannotOpen)
    else
      var v := Validate(src.info, configRate.GetOr(src.info.samplerate), outputs, t.value);
      if v.Some? then Err(Mismatch(v.value)) else Ok(sampleSize(t.value).value)
  }

  /**
   * An input file is accepted exactly when the output channels agree on a
   * sized sample type, the file opens, it has one channel per output channel
   * in that sample type, and a configured rate, if any, is the file's rate.
   */
  lemma InputFileCheckSpec(src: InputSource, infos: seq<ChannelInfo>, outputs: int, configRate: Option<int>,
                           sampleSize: SampleType -> Option<Width>)
    ensures var t := GetCommonSampleType(infos, false);
      InputFileCheck(src, infos, outputs, configRate, sampleSize).Ok? <==>
        && t.Ok? && sampleSize(t.value).Some? && src.opens
        && src.info.channels == outputs
        && SfFormatToASIOSampleType(src.info.format) == Some(t.value)
        && (configRate.None? || configRate.value == src.info.samplerate)
  {
    var t := GetCommonSampleType(infos, false);
    if t.Ok? {
      ValidateSpec(src.info, configRate.GetOr(src.info.samplerate), outputs, t.value);
    }
  }

  /** The rate the session runs at: the configured one, else the input file's, else the driver's initial rate. */
  function TargetSampleRate(configRate: Option<int>, inputFile: Option<InputSource>, initialRate: int): int {
    if configRate.Some? then configRate.value
    else if inputFile.Some? then inputFile.value.info.samplerate
    else initialRate
  }

  /**
   * Whenever an input file is accepted, the session runs at the file's own
   * rate, whatever was configured; without one, a configured rate wins over
   * the driver's.
   */
  lemma TargetSampleRateSpec(config: Config, infos: seq<ChannelInfo>, outputs: int, initialRate: int,
                             sampleSize: SampleType -> Option<Width>)
    ensures config.inputFile.Some? && InputFileCheck(config.inputFile.value, infos, outputs, config.sampleRate, sampleSize).Ok? ==>
      TargetSampleRate(config.sampleRate, config.inputFile, initialRate) == config.inputFile.value.info.samplerate
    ensures config.inputFile.None? ==>
      TargetSampleRate(config.sampleRate, config.inputFile, initialRate) == config.sampleRate.GetOr(initialRate)
  {
    if config.inputFile.Some? {
      InputFileCheckSpec(config.inputFile.value, infos, outputs, config.sampleRate, sampleSize);
    }
  }

  /**
   * The output file step: the input channels must share a sample type of
   * known size that has a file format, and the file must be created; the
   * result is the sample size used to record and the file's SF_INFO.
   */
  function OutputFileCheck(tgt: OutputTarget, infos: seq<ChannelInfo>, inputs: int, rate: int,
                           sampleSize: SampleType -> Option<Width>): Result<(Width, SfInfo), FileProblem>
  {
    var t := GetCommonSampleType(infos, true);
    if t.Err? then Err(NoCommonType(t.error))
    else if sampleSize(t.value).None? then Err(NoSampleSize(t.value))
    else
      var info := GetSfInfo(rate, inputs, t.value);
      if info.Err? then Err(UnsupportedType(t.value))
      else if !tgt.opens then Err(CannotOpen)
      else Ok((sampleSize(t.value).value, info.value))
  }

  /**
   * An output file is created exactly when the input channels agree on a
   * sized sample type with a file format and the file can be created; it
   * then records at the session's rate, one channel per input channel, in a
   * format that reads back as that sample type (little-endian).
   */
  lemma OutputFileCheckSpec(tgt: OutputTarget, infos: seq<ChannelInfo>, inputs: int, rate: int,
                            sampleSize: SampleType -> Option<Width>)
    ensures var t := GetCommonSampleType(infos, true);
      var r := OutputFileCheck(tgt, infos, inputs, rate, sampleSize);
      && (r.Ok? <==> t.Ok? && sampleSize(t.value).Some? && (t.value in MsbTypes || t.value in LsbTypes) && tgt.opens)
      && (r.Ok? ==>
            && r.value.0 == sampleSize(t.value).value
            && r.value.1.samplerate == rate && r.value.1.channels == inputs
            && SfFormatToASIOSampleType(r.value.1.format) == Some(LittleEndianOf(t.value)))
  {
    var t := GetCommonSampleType(infos, true);
    if t.Ok? {
      OutputFileFormat(rate, inputs, t.value);
    }
  }

  /*
   * The session.
   */

  /** Why a session ends without passing. */
  datatype SessionFailure =
    | InitFailed
    | ZeroChannels
    | NoInitialRate
    | ProbeFailed(rate: int)
    | ChannelInfoMissing
    | InputFileFailed(problem: FileProblem)
    | OutputFileFailed(problem: FileProblem)
    | TargetRateRejected(rate: int)
    | NoBufferSize
    | NoBuffers
    | StartFailed
    | RunFailed
    | StopFailed

  /**
   * How RunInitialized ends: it passes, it fails, it waits forever for an
   * outcome no callback provides, or the process aborts on a misused
   * callback slot.
   */
  datatype RunResult = Passed | Failed(failure: SessionFailure) | Waiting | Aborted

  /** The checks of the files and of the target rate that the driver does not take part in. */
  function FilesCheck(config: Config, infos: seq<ChannelInfo>, counts: (int, int), initialRate: int,
                      sampleSize: SampleType -> Option<Width>): (r: Result<int, SessionFailure>)
    ensures r.Err? ==> r.error.InputFileFailed? || r.error.OutputFileFailed?
  {
    var input := if config.inputFile.Some?
                 then InputFileCheck(config.inputFile.value, infos, counts.1, config.sampleRate, sampleSize)
                 else Ok(1);
    var target := TargetSampleRate(config.sampleRate, config.inputFile, initialRate);
    var output := if config.outputFile.Some?
                  then OutputFileCheck(config.outputFile.value, infos, counts.0, target, sampleSize)
                  else Ok((1, SfInfo(0, 0, 0)));
    if input.Err? then Err(InputFileFailed(input.error))
    else if output.Err? then Err(OutputFileFailed(output.error))
    else Ok(target)
  }

  /**
   * What holds of the driver and the configuration once the session has got
   * as far as asking for buffers: the driver initialised and reported some
   * channels and an initial rate, every probed rate it accepted was set and
   * read back, it described as many channels as it counted, the configured
   * files were accepted, and the target rate was accepted, set and read
   * back.
   */
  ghost predicate SessionReady(d: Driver, config: Config, sampleSize: SampleType -> Option<Width>, initialRate: Option<int>) {
    && ChannelsDescribed(d, initialRate)
    && var target := TargetSampleRate(config.sampleRate, config.inputFile, initialRate.value);
    && SessionFiles(d, config, sampleSize, initialRate) == Ok(target)
    && RateAccepted(d, target)
  }

  /**
   * The first part of SessionReady: the driver initialised, reported some
   * channels and an initial rate, passed the probe and described as many
   * channels as it counted.
   */
  ghost predicate ChannelsDescribed(d: Driver, initialRate: Option<int>) {
    var counts := ChannelCounts(d);
    && d.initOk && counts != (0, 0) && initialRate.Some?
    && FirstProbeFailure(d, ProbeRates).None?
    && |AllAnswered(d, counts)| == counts.0 + counts.1
  }

  /** The files check as the session runs it, on the driver's channel descriptions and initial rate. */
  ghost function SessionFiles(d: Driver, config: Config, sampleSize: SampleType -> Option<Width>, initialRate: Option<int>)
    : Result<int, SessionFailure>
    requires initialRate.Some?
  {
    FilesCheck(config, AllAnswered(d, ChannelCounts(d)), ChannelCounts(d), initialRate.value, sampleSize)
  }

  /** The driver supports the rate, accepts it and then reports it. */
  predicate RateAccepted(d: Driver, rate: int) {
    rate in d.supportedRates && rate in d.settableRates && d.rateAfterSet(rate) == Some(rate)
  }

  /**
   * Lines up to the target rate: initialise, count the channels, read the
   * initial rate, probe, query the channels, check the files and set the
   * target rate. On success the result is the channel counts.
   */
  method Prepare(d: Driver, config: Config, sampleSize: SampleType -> Option<Width>) returns (r: Result<(int, int), SessionFailure>)
    modifies d
    ensures !d.initOk ==> r == Err(InitFailed) && d.calls == old(d.calls) + [ASIOInit]
    ensures d.initOk && ChannelCounts(d) == (0, 0) ==>
      r == Err(ZeroChannels) && d.calls == old(d.calls) + [ASIOInit, ASIOGetChannels]
    ensures r == Err(NoInitialRate) <==> d.initOk && ChannelCounts(d) != (0, 0) && old(d.reportedRate).None?
    ensures r.Err? && r.error.ProbeFailed? ==> FirstProbeFailure(d, ProbeRates) == Some(r.error.rate)
    ensures d.initOk && ChannelCounts(d) != (0, 0) && old(d.reportedRate).Some? && FirstProbeFailure(d, ProbeRates).Some? ==>
      r == Err(ProbeFailed(FirstProbeFailure(d, ProbeRates).value))
    ensures r == Err(ChannelInfoMissing) <==>
      && d.initOk && ChannelCounts(d) != (0, 0) && old(d.reportedRate).Some? && FirstProbeFailure(d, ProbeRates).None?
      && |AllAnswered(d, ChannelCounts(d))| != ChannelCounts(d).0 + ChannelCounts(d).1
    ensures ChannelsDescribed(d, old(d.reportedRate)) ==>
      var files := SessionFiles(d, config, sampleSize, old(d.reportedRate));
      && (files.Err? ==> r == Err(files.error))
      && (files.Ok? && !RateAccepted(d, files.value) ==> r == Err(TargetRateRejected(files.value)))
    ensures r.Err? && (r.error.InputFileFailed? || r.error.OutputFileFailed? || r.error.TargetRateRejected?) ==>
      && ChannelsDescribed(d, old(d.reportedRate))
      && var files := SessionFiles(d, config, sampleSize, old(d.reportedRate));
      && (if r.error.TargetRateRejected? then files == Ok(r.error.rate) && !RateAccepted(d, r.error.rate)
          else files == Err(r.error))
    ensures r.Ok? <==> SessionReady(d, config, sampleSize, old(d.reportedRate))
    ensures r.Ok? ==> r.value == ChannelCounts(d)
    ensures r.Err? ==> !BuffersRequested(Failed(r.error))
  {
    var initialized := d.Init();
    if !initialized {
      return Err(InitFailed);
    }
    var reported := d.GetChannels();
    var counts := if reported.Some? then reported.value else (0, 0);
    if counts == (0, 0) {
      return Err(ZeroChannels);
    }
    var initialRate := d.GetSampleRate();
    if initialRate.None? {
      return Err(NoInitialRate);
    }
    var failed := ProbeSampleRates(d);
    if failed.Some? {
      return Err(ProbeFailed(failed.value));
    }
    var infos := GetAllChannelInfo(d, counts);
    if |infos| != counts.0 + counts.1 {
      return Err(ChannelInfoMissing);
    }
    var files := FilesCheck(config, infos, counts, initialRate.value, sampleSize);
    if files.Err? {
      return Err(files.error);
    }
    var target := files.value;
    var accepted := d.CanSampleRate(target);
    if !accepted {
      return Err(TargetRateRejected(target));
    }
    var changed := d.SetSampleRate(target);
    if !changed {
      return Err(TargetRateRejected(target));
    }
    var readBack := d.GetSampleRate();
    if readBack != Some(target) {
      return Err(TargetRateRejected(target));
    }
    r := Ok(counts);
  }

  /** The session got as far as asking the driver for buffers. */
  predicate BuffersRequested(r: RunResult) {
    || r.Passed? || r.Waiting?
    || (r.Failed? && (r.failure.NoBuffers? || r.failure.StartFailed? || r.failure.RunFailed? || r.failure.StopFailed?))
  }

  /** The driver was started and the session waited for an outcome. */
  predicate Started(r: RunResult) {
    r.Passed? || r.Waiting? || r == Failed(RunFailed) || r == Failed(StopFailed)
  }

  /** The identity under which the session's callbacks claim the slot. */
  const SessionCallbacks: nat := 1

  /**
   * Leaving the session's scope: the buffers, if any, are disposed of, then
   * the callbacks give up the slot (which aborts if they do not hold it).
   */
  method Leave(d: Driver, slot: CallbackSlot, holdsBuffers: bool) returns (aborted: bool)
    modifies d, slot
    ensures d.calls == old(d.calls) + (if holdsBuffers then [ASIODisposeBuffers] else [])
    ensures d.reportedRate == old(d.reportedRate)
    ensures aborted <==> old(slot.global) != Some(SessionCallbacks)
    ensures !aborted ==> slot.global.None?
  {
    if holdsBuffers {
      d.DisposeBuffers();
    }
    aborted := slot.Unregister(SessionCallbacks);
  }

  /** The calls between creating the buffers and starting: re-read the rate and channels, read the latencies, start. */
  method Start(d: Driver, counts: (int, int)) returns (started: bool)
    modifies d
    ensures started == d.startOk
    ensures |d.calls| > 0 && d.calls[|d.calls| - 1] == ASIOStart
  {
    var _ := d.GetSampleRate();
    var _ := GetAllChannelInfo(d, counts);
    d.GetLatencies();
    started := d.Start();
  }

  /**
   * The wait for an outcome: the run state starts with no outcome and no
   * switch, and the callbacks drive it; no outcome means the wait never ends.
   */
  method AwaitOutcome(threw: seq<bool>) returns (outcome: Option<Outcome>)
    ensures outcome == Run(None, 0, threw).0
  {
    var state := new RunState();
    DeliverCallbacks(state, threw);
    outcome := state.outcome;
  }

  /**
   * From asking for buffers to the end: create the buffers, run the driver
   * until an outcome, stop it, and leave. The buffer switch callbacks the
   * driver makes once started are given by `threw`: entry k tells whether
   * callback k threw (Callback.BufferSwitch says when it does).
   */
  method Operate(d: Driver, slot: CallbackSlot, counts: (int, int), preferred: int, threw: seq<bool>)
    returns (r: RunResult)
    requires Requests(counts) != []
    modifies d, slot
    ensures BuffersRequested(r) || r.Aborted?
    ensures r == Failed(NoBuffers) <==> !d.createOk && !r.Aborted?
    ensures !r.Aborted? ==> (r == Failed(StartFailed) <==> d.createOk && !d.startOk)
    ensures d.createOk && d.startOk && !r.Aborted? ==> Started(r)
    ensures old(slot.global) == Some(SessionCallbacks) ==>
      (r.Passed? <==> d.createOk && d.startOk && Run(None, 0, threw).0 == Some(Success) && d.stopOk)
    ensures Started(r) ==>
      var outcome := Run(None, 0, threw).0;
      && (r.Waiting? <==> outcome.None?)
      && (r == Failed(RunFailed) <==> outcome == Some(Failure))
      && (r.Passed? <==> outcome == Some(Success) && d.stopOk)
    ensures old(slot.global) == Some(SessionCallbacks) ==> !r.Aborted? && (r.Waiting? || slot.global.None?)
    ensures d.createOk && !r.Waiting? && !r.Aborted? ==>
      |d.calls| > 0 && d.calls[|d.calls| - 1] == ASIODisposeBuffers
  {
    var requests := BuildRequests(counts);
    var created := d.CreateBuffers(requests, preferred);
    var buffers := if created then requests else [];
    if |buffers| == 0 {
      var aborted := Leave(d, slot, false);
      return if aborted then Aborted else Failed(NoBuffers);
    }
    var started := Start(d, counts);
    if !started {
      var aborted := Leave(d, slot, true);
      return if aborted then Aborted else Failed(StartFailed);
    }
    var outcome := AwaitOutcome(threw);
    if outcome.None? {
      return Waiting;
    }
    if outcome != Some(Success) {
      assert outcome.value == Failure;
      var aborted := Leave(d, slot, true);
      return if aborted then Aborted else Failed(RunFailed);
    }
    var stopped := d.Stop();
    var aborted := Leave(d, slot, true);
    r := if aborted then Aborted else if stopped then Passed else Failed(StopFailed);
  }

  /**
   * After the target rate is set: read the buffer size, tell the driver the
   * session is ready for output, claim the callback slot, and operate.
   */
  method Serve(d: Driver, slot: CallbackSlot, counts: (int, int), threw: seq<bool>) returns (r: RunResult)
    requires Requests(counts) != []
    modifies d, slot
    ensures r == Failed(NoBufferSize) <==> d.bufferSize.None?
    ensures r.Failed? ==> BuffersRequested(r) || r == Failed(NoBufferSize)
    ensures BuffersRequested(r) ==> d.bufferSize.Some? && (r == Failed(NoBuffers) <==> !d.createOk)
    ensures d.bufferSize.Some? ==> (r.Aborted? <==> old(slot.global).Some?)
    ensures !r.Aborted? ==> (r == Failed(StartFailed) <==> d.bufferSize.Some? && d.createOk && !d.startOk)
    ensures d.bufferSize.Some? && d.createOk && d.startOk && !r.Aborted? ==> Started(r)
    ensures r.Passed? <==>
      && d.bufferSize.Some? && old(slot.global).None?
      && d.createOk && d.startOk && Run(None, 0, threw).0 == Some(Success) && d.stopOk
    ensures Started(r) ==>
      var outcome := Run(None, 0, threw).0;
      && (r.Waiting? <==> outcome.None?)
      && (r == Failed(RunFailed) <==> outcome == Some(Failure))
      && (r.Passed? <==> outcome == Some(Success) && d.stopOk)
    ensures old(slot.global).None? ==> !r.Aborted? && (r.Waiting? || slot.global.None?)
    ensures BuffersRequested(r) && d.createOk && !r.Waiting? ==>
      |d.calls| > 0 && d.calls[|d.calls| - 1] == ASIODisposeBuffers
  {
    var size := d.GetBufferSize();
    if size.None? {
      return Failed(NoBufferSize);
    }
    d.OutputReady();
    var aborted := slot.Register(SessionCallbacks);
    if aborted {
      return Aborted;
    }
    r := Operate(d, slot, counts, size.value.preferred, threw);
  }

  /** RunInitialized: prepare, then serve. */
  method RunInitialized(d: Driver, config: Config, sampleSize: SampleType -> Option<Width>,
                        slot: CallbackSlot, threw: seq<bool>)
    returns (r: RunResult)
    modifies d, slot
    ensures !d.initOk ==> r == Failed(InitFailed)
    ensures d.initOk && ChannelCounts(d) == (0, 0) ==>
      r == Failed(ZeroChannels) && d.calls == old(d.calls) + [ASIOInit, ASIOGetChannels]
    ensures r == Failed(NoInitialRate) <==> d.initOk && ChannelCounts(d) != (0, 0) && old(d.reportedRate).None?
    ensures r.Failed? && r.failure.ProbeFailed? ==> FirstProbeFailure(d, ProbeRates) == Some(r.failure.rate)
    ensures d.initOk && ChannelCounts(d) != (0, 0) && old(d.reportedRate).Some? && FirstProbeFailure(d, ProbeRates).Some? ==>
      r == Failed(ProbeFailed(FirstProbeFailure(d, ProbeRates).value))
    ensures r == Failed(ChannelInfoMissing) <==>
      && d.initOk && ChannelCounts(d) != (0, 0) && old(d.reportedRate).Some? && FirstProbeFailure(d, ProbeRates).None?
      && |AllAnswered(d, ChannelCounts(d))| != ChannelCounts(d).0 + ChannelCounts(d).1
    ensures ChannelsDescribed(d, old(d.reportedRate)) ==>
      var files := SessionFiles(d, config, sampleSize, old(d.reportedRate));
      && (files.Err? ==> r == Failed(files.error))
      && (files.Ok? && !RateAccepted(d, files.value) ==> r == Failed(TargetRateRejected(files.value)))
    ensures r.Failed? && (r.failure.InputFileFailed? || r.failure.OutputFileFailed? || r.failure.TargetRateRejected?) ==>
      && ChannelsDescribed(d, old(d.reportedRate))
      && var files := SessionFiles(d, config, sampleSize, old(d.reportedRate));
      && (if r.failure.TargetRateRejected? then files == Ok(r.failure.rate) && !RateAccepted(d, r.failure.rate)
          else files == Err(r.failure))
    ensures r == Failed(NoBufferSize) <==> SessionReady(d, config, sampleSize, old(d.reportedRate)) && d.bufferSize.None?
    ensures r.Aborted? <==>
      SessionReady(d, config, sampleSize, old(d.reportedRate)) && d.bufferSize.Some? && old(slot.global).Some?
    ensures !r.Aborted? ==>
      (r == Failed(StartFailed) <==>
         SessionReady(d, config, sampleSize, old(d.reportedRate)) && d.bufferSize.Some? && d.createOk && !d.startOk)
    ensures r.Passed? <==>
      && SessionReady(d, config, sampleSize, old(d.reportedRate)) && d.bufferSize.Some? && old(slot.global).None?
      && d.createOk && d.startOk && Run(None, 0, threw).0 == Some(Success) && d.stopOk
    ensures BuffersRequested(r) ==> SessionReady(d, config, sampleSize, old(d.reportedRate)) && d.bufferSize.Some?
    ensures SessionReady(d, config, sampleSize, old(d.reportedRate)) && d.bufferSize.Some? && old(slot.global).None? ==>
      && BuffersRequested(r)
      && (d.createOk && d.startOk ==> Started(r))
    ensures BuffersRequested(r) ==> (r == Failed(NoBuffers) <==> !d.createOk)
    ensures Started(r) ==>
      var outcome := Run(None, 0, threw).0;
      && (r.Waiting? <==> outcome.None?)
      && (r == Failed(RunFailed) <==> outcome == Some(Failure))
      && (r.Passed? <==> outcome == Some(Success) && d.stopOk)
    ensures old(slot.global).None? ==> !r.Aborted? && (r.Waiting? || slot.global.None?)
    ensures BuffersRequested(r) && d.createOk && !r.Waiting? ==>
      |d.calls| > 0 && d.calls[|d.calls| - 1] == ASIODisposeBuffers
  {
    ghost var initialRate := d.reportedRate;
    var prepared := Prepare(d, config, sampleSize);
    if prepared.Err? {
      return Failed(prepared.error);
    }
    assert SessionReady(d, config, sampleSize, initialRate);
    RequestsNonEmpty(d, prepared.value);
    r := Serve(d, slot, prepared.value, threw);
  }
}
