# FlexASIO test harness and driver facade, in Dafny

This project models two parts of FlexASIO, a universal ASIO driver for Windows.

The first part is **FlexASIOTest**, the host program that exercises the driver. It is modelled by these modules:

- **Negotiation** covers the sample-type negotiation. Every channel of one direction must use the same ASIO sample type.
- **SampleFormat** covers the two tables between ASIO sample types and libsndfile format codes. Format codes are `bv32`, so the masks are literal.
- **Interleaving** and **Transcoder** cover the interleaving transcoder:
  - Interleaving is a pure description of frame-major interleaving and of cutting byte runs into samples.
  - Transcoder holds the imperative `MakeInterleavedBuffer` and `CopyInterleavedBufferToASIO`. They run over the per-channel double buffers, which are arrays of samples.
- **SoundFiles** covers the input file (validation, and a chunked read with zero padding by its caller) and the output file (chunked write).
- **RunControl** covers the run bookkeeping:
  - the first-writer-wins outcome;
  - the buffer switch counter, which declares success at 30;
  - the asioMessage selector dispatch;
  - the single `Callbacks::global` slot.
- **Callback** covers one `bufferSwitch` callback: record the input halves, play the next block of the input file, count.
- **Session** covers `RunInitialized`, the session run against a driver whose every answer is an oracle. The steps are:
  - init;
  - channel counts, rejecting zero channels;
  - the probe of the four standard rates;
  - the channel queries;
  - the input and output files and the target rate (config, then the input file, then the driver's initial rate), with exact read-back;
  - the buffers;
  - start, waiting for an outcome, stop;
  - disposal and release of the callback slot in destructor order.

The second part is **CFlexASIO**, the COM-facing facade of the driver, modelled in the **CFlexAsio** module.

- It is either uninitialised or holds the inner FlexASIO object, and it keeps the text of the last error.
- Every entry point goes through `Enter`, which maps an escaping exception to an ASIO error code.
- `EnterInitialized`/`EnterWithMethod` refuse to run before `init`.

Constants come from the ASIO SDK header `asio.h` and the libsndfile header `sndfile.h`.

## Model

| member | source | states |
|---|---|---|
| Negotiation.OfDirection | src/flexasio/FlexASIOTest/test.cpp:76-77 | A channel is among those considered exactly when it is in the list and has the requested direction |
| Negotiation.CommonFromIgnoresOtherDirection | src/flexasio/FlexASIOTest/test.cpp:76-77 | Channels of the other direction play no part in the fold: folding the full list equals folding only that direction's channels |
| Negotiation.CommonFromKnown | src/flexasio/FlexASIOTest/test.cpp:78-83 | Once a type is known, the fold succeeds with it iff every channel has it; otherwise it fails naming the known type and the first different type |
| Negotiation.CommonSampleTypeSpec | src/flexasio/FlexASIOTest/test.cpp:74-86 | The result is "no channels" iff the direction has none, succeeds iff all its channels share a type (that type), and otherwise names the first channel's type and the first differing type, always with the direction |
| Negotiation.IgnoresOtherDirection | src/flexasio/FlexASIOTest/test.cpp:77 | Inserting a channel of the other direction anywhere never changes the outcome |
| SampleFormat.FindIsFirstMatch | src/flexasio/FlexASIOTest/test.cpp:125-136 | The table lookup yields nothing iff no key matches, else the value of the first matching entry |
| SampleFormat.OutputFormatCases | src/flexasio/FlexASIOTest/test.cpp:124-137 | The output table, case by case: the ten types and their subformat and endianness codes, nothing for any other type |
| SampleFormat.InputFormatCases | src/flexasio/FlexASIOTest/test.cpp:138-147 | The input table, case by case on the subformat bits: five subformats, each to its little-endian sample type |
| SampleFormat.OutputFormatDomain | src/flexasio/FlexASIOTest/test.cpp:124-137 | An output format exists iff the type is one of the ten listed |
| SampleFormat.OutputFormatInjective | src/flexasio/FlexASIOTest/test.cpp:124-137 | Distinct sample types never share an output format |
| SampleFormat.InputFormatIgnoresUpperBits | src/flexasio/FlexASIOTest/test.cpp:138-140 | Two formats with the same subformat bits read as the same sample type |
| SampleFormat.InputFormatIsLittleEndian | src/flexasio/FlexASIOTest/test.cpp:138-147 | A recognised format always reads as a little-endian type |
| SampleFormat.FormatRoundTrip | src/flexasio/FlexASIOTest/test.cpp:124-147 | Writing a listed type's format and reading it back gives the type itself for little-endian types and its little-endian counterpart for big-endian ones |
| SoundFiles.ValidateSpec | src/flexasio/FlexASIOTest/test.cpp:170-176 | Validation passes iff rate, channel count and sample type all match; each error is the first failing check in source order, expected value first |
| SoundFiles.BigEndianFileRejected | src/flexasio/FlexASIOTest/test.cpp:139-147 | A file in a big-endian type's format fails validation against that type, reporting its little-endian counterpart |
| SoundFiles.ResizeSpec | src/flexasio/FlexASIOTest/test.cpp:606 | Resizing gives exactly n bytes: the original bytes that fit, zeros after them |
| SoundFiles.ReadOutcomeSpec | src/flexasio/FlexASIOTest/test.cpp:178-194 | A read fails iff an I/O error comes before the requested bytes, with that error; otherwise it returns at most the requested bytes, in file order from the cursor, and is short only at end of file |
| SoundFiles.PaddedRead | src/flexasio/FlexASIOTest/test.cpp:604-606 | After padding, the caller holds exactly the requested size: the file's bytes from the cursor, then zeros |
| SoundFiles.InputFile.constructor | src/flexasio/FlexASIOTest/test.cpp:166 | An opened input file starts at byte 0 with the SF_INFO it reported |
| SoundFiles.InputFile.SampleRate | src/flexasio/FlexASIOTest/test.cpp:168 | The file's own rate |
| SoundFiles.InputFile.RawRead | src/flexasio/FlexASIOTest/test.cpp:182 | sf_read_raw: at most one chunk of the requested bytes from the cursor, none past an I/O error; the cursor advances by what was read |
| SoundFiles.InputFile.Error | src/flexasio/FlexASIOTest/test.cpp:184 | sf_error reports an error iff reading stopped at an I/O error |
| SoundFiles.InputFile.Read | src/flexasio/FlexASIOTest/test.cpp:178-194 | The chunked read loop yields exactly ReadOutcome and moves the cursor past what it returned (to the error point on failure) |
| SoundFiles.OutputFileFormat | src/flexasio/FlexASIOTest/test.cpp:215-224 | The output SF_INFO exists iff the type has a format; it carries the session's rate and channel count, the WAVEX container, and reads back as the type's little-endian counterpart |
| SoundFiles.OutputFile.constructor | src/flexasio/FlexASIOTest/test.cpp:202-203 | A created output file is empty |
| SoundFiles.OutputFile.RawWrite | src/flexasio/FlexASIOTest/test.cpp:208 | sf_write_raw: appends at most one chunk, nothing once the file is full |
| SoundFiles.OutputFile.Write | src/flexasio/FlexASIOTest/test.cpp:205-212 | The write succeeds iff the whole buffer fits; the file then holds its old bytes followed by as much of the buffer as fitted |
| Interleaving.InterleaveAt | src/flexasio/FlexASIOTest/test.cpp:95-103 | Sample j of channel c is sample j·n + c of the interleaved stream |
| Interleaving.InterleavedBytes | src/flexasio/FlexASIOTest/test.cpp:92 | The interleaved stream of frames frames is exactly frames · n · s bytes |
| Interleaving.InterleavedByteAt | src/flexasio/FlexASIOTest/test.cpp:88-105 | Byte k of sample j of channel c lands at offset (j·n + c)·s + k |
| Interleaving.InterleavedChannels | src/flexasio/FlexASIOTest/test.cpp:88-122 | Every channel read back from an interleaved stream is that channel's first frames samples |
| Interleaving.InterleaveChannels | src/flexasio/FlexASIOTest/test.cpp:108-122 | Splitting a stream into channels and interleaving them again gives the stream's first frames · n samples |
| Interleaving.Deinterleaved | src/flexasio/FlexASIOTest/test.cpp:112-121 | A byte run of a whole number of frames splits into len/(n·s) frames of sized samples whose stream is the run itself |
| Interleaving.ChunksFlatten | src/flexasio/FlexASIOTest/test.cpp:117-119 | Cutting the bytes of s-byte samples into s-byte pieces gives the samples back |
| Transcoder.ActiveHalves | src/flexasio/FlexASIOTest/test.cpp:97 | Channel i's active half is half doubleBufferIndex of descriptor i |
| Transcoder.SelectedMembers | src/flexasio/FlexASIOTest/test.cpp:89-90 | The partition keeps exactly the descriptors of the direction |
| Transcoder.SelectedSizes | src/flexasio/FlexASIOTest/test.cpp:89 | Every descriptor falls on exactly one side of the partition |
| Transcoder.SelectedDistinct | src/flexasio/FlexASIOTest/test.cpp:109-110 | Disjoint double buffers give the selected channels distinct active halves |
| Transcoder.CopySample | src/flexasio/FlexASIOTest/test.cpp:98 | memcpy of one sample: the buffer gains the sample at the write position, and nothing after it changes |
| Transcoder.GatherFrame | src/flexasio/FlexASIOTest/test.cpp:96-101 | One inner-loop pass appends exactly the bytes of frame j and advances the write position by their length |
| Transcoder.GatherFrames | src/flexasio/FlexASIOTest/test.cpp:95-104 | The outer loop fills the buffer with exactly the interleaved stream, so the abort cannot fire |
| Transcoder.MakeInterleavedBuffer | src/flexasio/FlexASIOTest/test.cpp:88-106 | The result is bufferSize · #inputs · sampleSize bytes, and it is the interleaving of the input channels' active halves |
| Transcoder.ScatterFrame | src/flexasio/FlexASIOTest/test.cpp:115-120 | One inner-loop pass writes sample j of every output half from frame j's bytes; no other sample changes |
| Transcoder.ScatterFrames | src/flexasio/FlexASIOTest/test.cpp:114-121 | The outer loop writes the first frames samples of every output half and leaves the rest unchanged |
| Transcoder.CopyInterleavedBufferToASIO | src/flexasio/FlexASIOTest/test.cpp:108-122 | Aborts iff the length is not a multiple of #outputs · sampleSize, writing nothing; otherwise the first len/(#outputs · sampleSize) samples of each output's active half are that channel of the stream and nothing else changes |
| Transcoder.TranscodeRoundTrip | src/flexasio/FlexASIOTest/test.cpp:88-122 | Interleaving then scattering onto as many channels never aborts and gives every channel its first frames samples back |
| RunControl.Settled | src/flexasio/FlexASIOTest/test.cpp:581-588 | setOutcome keeps an outcome already set and otherwise sets the new one |
| RunControl.SettledStays | src/flexasio/FlexASIOTest/test.cpp:584 | Once an outcome is set, no series of later requests changes it |
| RunControl.FirstRequestWins | src/flexasio/FlexASIOTest/test.cpp:581-588 | From no outcome, a series of requests ends with the first one |
| RunControl.RunState.constructor | src/flexasio/FlexASIOTest/test.cpp:579-591 | A run starts with no outcome and a count of zero |
| RunControl.RunState.SetOutcome | src/flexasio/FlexASIOTest/test.cpp:581-588 | The outcome becomes Settled(old, new); waiters are notified iff there was none; the count is untouched |
| RunControl.RunState.IncrementBufferSwitchCount | src/flexasio/FlexASIOTest/test.cpp:590-597 | The count goes up by one, and success is requested from the 30th switch on |
| RunControl.RunOutcome | src/flexasio/FlexASIOTest/test.cpp:581-615 | For any series of callbacks: success iff the callbacks up to the 30th switch all complete, failure iff one of them throws first, no outcome otherwise |
| RunControl.RunSettled | src/flexasio/FlexASIOTest/test.cpp:584 | After an outcome is set, later callbacks only move the count |
| RunControl.DeliverCallbacks | src/flexasio/FlexASIOTest/test.cpp:599-627 | Delivering the callbacks one by one leaves the outcome and count that Run computes |
| RunControl.HandleASIOMessageSpec | src/flexasio/FlexASIOTest/test.cpp:241-253 | asioMessage answers 1 to kAsioSelectorSupported for exactly the two handled selectors, 1 to kAsioSupportsTimeInfo, and 0 to everything else |
| RunControl.HandlerCases | src/flexasio/FlexASIOTest/test.cpp:431-435 | The dispatch table finds exactly the two handled selectors |
| RunControl.CallbackSlot.constructor | src/flexasio/FlexASIOTest/test.cpp:668 | The slot starts empty |
| RunControl.CallbackSlot.Register | src/flexasio/FlexASIOTest/test.cpp:440-443 | Claiming the slot aborts iff it is occupied, and otherwise stores the callbacks |
| RunControl.CallbackSlot.Unregister | src/flexasio/FlexASIOTest/test.cpp:444-447 | Releasing aborts iff the slot does not hold these callbacks, and otherwise empties it |
| RunControl.CallbackSlot.Target | src/flexasio/FlexASIOTest/test.cpp:464-468 | A driver callback aborts the process iff no callbacks object is registered, and otherwise reaches the registered one |
| Callback.PaddedReadFrames | src/flexasio/FlexASIOTest/test.cpp:604-607 | A read padded to preferred · #outputs · sampleSize splits into exactly preferred whole frames, so the copy never aborts |
| Callback.RecordInputs | src/flexasio/FlexASIOTest/test.cpp:602 | The output file gains the interleaved input halves; it fails iff they do not all fit |
| Callback.PlayInputFile | src/flexasio/FlexASIOTest/test.cpp:603-608 | Fails iff the read fails, and then the cursor is at the readable end and the halves are unchanged; otherwise the cursor advances past the bytes read and each output half's first preferred samples are its channel of the zero-padded block, the rest unchanged (Played) |
| Callback.BufferSwitch | src/flexasio/FlexASIOTest/test.cpp:599-615 | The run state advances as Step says; the callback throws iff the write does not fit or the read fails; the output file gains as much of the interleaved input halves as fits; a failed write leaves the input file and the output halves untouched; otherwise the input file and the output halves end as Played says |
| Callback.PlayAndCount | src/flexasio/FlexASIOTest/test.cpp:603-614 | With an input file, throws iff the read fails and leaves the file and halves as Played says; the run state advances as Step says |
| Session.Driver.constructor | src/flexasio/FlexASIOTest/test.cpp:264 | A driver with fixed answers, its initial rate, and an empty call log |
| Session.Driver.Init | src/flexasio/FlexASIOTest/test.cpp:285-293 | ASIOInit answers the oracle and is logged |
| Session.Driver.GetChannels | src/flexasio/FlexASIOTest/test.cpp:295-302 | ASIOGetChannels answers the oracle counts or nothing |
| Session.Driver.GetBufferSize | src/flexasio/FlexASIOTest/test.cpp:311-318 | ASIOGetBufferSize answers the oracle sizes or nothing |
| Session.Driver.GetSampleRate | src/flexasio/FlexASIOTest/test.cpp:320-327 | ASIOGetSampleRate answers the rate the driver currently reports |
| Session.Driver.CanSampleRate | src/flexasio/FlexASIOTest/test.cpp:329-332 | ASIOCanSampleRate succeeds iff the rate is supported |
| Session.Driver.SetSampleRate | src/flexasio/FlexASIOTest/test.cpp:334-337 | ASIOSetSampleRate succeeds iff the rate is settable, and then changes the reported rate |
| Session.Driver.OutputReady | src/flexasio/FlexASIOTest/test.cpp:339-342 | ASIOOutputReady is logged; its answer is unused |
| Session.Driver.GetChannelInfo | src/flexasio/FlexASIOTest/test.cpp:344-352 | ASIOGetChannelInfo answers the oracle description of that channel or nothing |
| Session.Driver.CreateBuffers | src/flexasio/FlexASIOTest/test.cpp:383-404 | ASIOCreateBuffers is logged with the requests and size and answers the oracle |
| Session.Driver.DisposeBuffers | src/flexasio/FlexASIOTest/test.cpp:372-377 | ASIODisposeBuffers is logged |
| Session.Driver.GetLatencies | src/flexasio/FlexASIOTest/test.cpp:406-411 | ASIOGetLatencies is logged |
| Session.Driver.Start | src/flexasio/FlexASIOTest/test.cpp:413-416 | ASIOStart answers the oracle |
| Session.Driver.Stop | src/flexasio/FlexASIOTest/test.cpp:418-421 | ASIOStop answers the oracle |
| Session.FirstProbeFailureSpec | src/flexasio/FlexASIOTest/test.cpp:487-492 | The probe passes iff every rate passes (declined, or set and read back exactly); otherwise it names the first failing rate |
| Session.ProbeSampleRates | src/flexasio/FlexASIOTest/test.cpp:487-492 | The probe loop ends at exactly the first failing rate, or passes |
| Session.AnsweredSpec | src/flexasio/FlexASIOTest/test.cpp:354-365 | Every collected description is the driver's answer for a queried channel; there are n answers iff all n channels answered |
| Session.ChannelCheckSpec | src/flexasio/FlexASIOTest/test.cpp:496-497 | With non-negative counts, the count check passes iff every channel of both directions is described |
| Session.QueryChannels | src/flexasio/FlexASIOTest/test.cpp:356-363 | One direction's loop collects exactly the answered channels, in channel order, and leaves the rate alone |
| Session.GetAllChannelInfo | src/flexasio/FlexASIOTest/test.cpp:354-365 | The answers for the inputs, then for the outputs |
| Session.Requests | src/flexasio/FlexASIOTest/test.cpp:384-394 | One buffer request per input channel and per output channel |
| Session.BuildRequests | src/flexasio/FlexASIOTest/test.cpp:384-394 | The two loops build exactly the request list: inputs 0.., then outputs 0.. |
| Session.RequestsNonEmpty | src/flexasio/FlexASIOTest/test.cpp:480-574 | Past the zero-channel and count checks the request list is never empty, so an empty buffer set means the driver refused the buffers |
| Session.InputFileCheckSpec | src/flexasio/FlexASIOTest/test.cpp:503-519 | An input file is accepted iff the outputs share a sized type, the file opens, has one channel per output in that type, and any configured rate is the file's own |
| Session.TargetSampleRateSpec | src/flexasio/FlexASIOTest/test.cpp:501-521 | With an accepted input file the target rate is the file's rate; without one it is the configured rate, else the driver's initial rate |
| Session.OutputFileCheckSpec | src/flexasio/FlexASIOTest/test.cpp:523-535 | An output file is created iff the inputs share a sized type with a file format and the file opens; it records at the target rate, one channel per input, in that type's little-endian format |
| Session.FilesCheck | src/flexasio/FlexASIOTest/test.cpp:501-535 | A failure of the file steps is always an input-file or output-file failure |
| Session.Prepare | src/flexasio/FlexASIOTest/test.cpp:474-539 | Each guard ends the session exactly when its condition fails and the earlier ones hold: init failure and zero channels with the logged calls, a missing initial rate, the first failing probe rate, a missing channel description, the file check's own error, a rejected target rate; it succeeds, with the channel counts, iff SessionReady holds |
| Session.Leave | src/flexasio/FlexASIOTest/test.cpp:372-377 | Leaving disposes the buffers iff any are held, then releases the slot, aborting iff it is not held |
| Session.Start | src/flexasio/FlexASIOTest/test.cpp:631-640 | The calls before starting end with ASIOStart, and starting succeeds iff the driver starts |
| Session.AwaitOutcome | src/flexasio/FlexASIOTest/test.cpp:649-653 | The outcome waited for is the one the callbacks settle from a fresh run |
| Session.Operate | src/flexasio/FlexASIOTest/test.cpp:573-662 | No buffers iff the driver refuses them; StartFailed iff it creates them but does not start; with the slot held it passes iff the driver creates, starts, the callbacks reach success and the driver stops; once started, the run waits iff no outcome and fails iff the outcome is failure; the buffers are disposed last |
| Session.Serve | src/flexasio/FlexASIOTest/test.cpp:543-574 | No buffer size iff the driver gives none; with a buffer size it aborts iff the slot is taken; StartFailed iff buffers are created but the driver does not start; passes iff the buffer size is given, the slot is free, the driver creates and starts, the callbacks reach success and the driver stops; with the slot free it releases the slot unless still waiting |
| Session.RunInitialized | src/flexasio/FlexASIOTest/test.cpp:474-663 | Every guard of Prepare is carried through as Failed; NoBufferSize iff SessionReady holds and the driver gives no buffer size; Aborted iff it gets that far with the slot taken; StartFailed iff it gets to creating buffers and the driver does not start; Passed iff SessionReady, a buffer size, a free slot, buffers, a start, a success outcome and a clean stop; with SessionReady, a buffer size and a free slot, the buffers are always asked for, and a created and started run always ends as Started says (waiting, run failure, pass or stop failure); buffers are asked for only when SessionReady holds; the slot is released and the buffers disposed last |
| CFlexAsio.EnterResultSpec | src/flexasio/FlexASIO/cflexasio.cpp:152-170 | Enter reports ASE_OK iff nothing escaped (given no ASIO exception carries ASE_OK), and ASE_HWMalfunction for every exception that is not an ASIO exception |
| CFlexAsio.ControlPanelActions | src/flexasio/FlexASIO/cflexasio.cpp:124-129 | Corrected controlPanel opens exactly one panel: the inner driver's iff there is one |
| CFlexAsio.ControlPanelAsWrittenUsesMissingDriver | src/flexasio/FlexASIO/cflexasio.cpp:126-127 | As written, before init the standalone panel opens and the inner driver's panel is then asked for as well |
| CFlexAsio.ControlPanelCorrectionAgrees | src/flexasio/FlexASIO/cflexasio.cpp:124-129 | Once initialised, the corrected and written behaviours agree |
| CFlexAsio.CFlexASIO.constructor | src/flexasio/FlexASIO/cflexasio.cpp:142-143 | A new facade is uninitialised with no last error |
| CFlexAsio.CFlexASIO.Enter | src/flexasio/FlexASIO/cflexasio.cpp:152-178 | The result is ASE_OK, the ASIO exception's code, or ASE_HWMalfunction; the last error is kept on success and is the exception's text otherwise |
| CFlexAsio.CFlexASIO.EnterInitialized | src/flexasio/FlexASIO/cflexasio.cpp:180-191 | Before init the body is not run and the call fails with ASE_InvalidMode and its message; afterwards it behaves as Enter on the body |
| CFlexAsio.CFlexASIO.Init | src/flexasio/FlexASIO/cflexasio.cpp:53-58 | The first successful call creates the inner driver and answers true; a later call answers false, keeps the driver and records the message |
| CFlexAsio.CFlexASIO.GetDriverName | src/flexasio/FlexASIO/cflexasio.cpp:59-63 | The buffer starts with the driver name and a NUL; the rest is untouched |
| CFlexAsio.CFlexASIO.GetDriverVersion | src/flexasio/FlexASIO/cflexasio.cpp:64-67 | The version is 0 |
| CFlexAsio.CFlexASIO.GetErrorMessage | src/flexasio/FlexASIO/cflexasio.cpp:68-76 | The buffer holds the first min(\|lastError\|, 123) characters of the last error, then a NUL; nothing after it changes |
| CFlexAsio.CFlexASIO.CanSampleRate | src/flexasio/FlexASIO/cflexasio.cpp:89-96 | Before init ASE_InvalidMode with the uninitialised-state message as the last error; afterwards ASE_OK for a supported rate and ASE_NoClock otherwise, or the error that escaped, whose text becomes the last error |
| CFlexAsio.CFlexASIO.ControlPanel | src/flexasio/FlexASIO/cflexasio.cpp:124-129 | Corrected controlPanel: opens what ControlPanelActions says and reports the outcome as Enter does |
| CFlexAsio.CFlexASIO.GetClockSources | src/flexasio/FlexASIO/cflexasio.cpp:193-206 | ASE_OK iff both addresses are given and there is room for a source; then exactly one source (index 0, channel and group -1, current, "Internal") and a count of 1; otherwise ASE_InvalidParameter with nothing written |
| CFlexAsio.CFlexASIO.SetClockSource | src/flexasio/FlexASIO/cflexasio.cpp:208-214 | ASE_OK iff the reference is 0; any other reference gives ASE_InvalidParameter |
| CFlexAsio.CFlexASIO.Future | src/flexasio/FlexASIO/cflexasio.cpp:130-135 | Always ASE_InvalidParameter, whatever the selector |
| CFlexAsio.CopyChars | src/flexasio/FlexASIO/cflexasio.cpp:73 | std::copy puts the text at the front of the buffer and leaves the rest alone |

## Left out

- libsndfile is not modelled:
  - An open input file is its bytes, a cursor, a largest chunk per sf_read_raw call, and the point where an I/O error stops reading.
  - An output file is its bytes so far and a capacity.
  - Whether a file opens is a parameter of the configuration.
  - sf_close and its error message are not modelled.
- Session.Driver: the ASIO host library and the driver behind it are oracles. Each call answers from fixed values; the only driver state is the reported rate. theAsioDriver, CreateFlexASIO and ReleaseFlexASIO are not modelled.
- Session.RunInitialized: the mutex, the condition variable and the blocking wait are concurrency and are not modelled.
  - The buffer switch callbacks are given as a sequence saying which of them threw.
  - A run with no outcome is reported as Waiting, where the source blocks forever.
  - Callback.BufferSwitch states the effect of one callback on the run state, the output file, the input file and the output halves; the sequence of callbacks is given by which of them threw.
- Session.RunInitialized: the driver call log is stated only for the early exits and for the last call (ASIODisposeBuffers). The calls in between are stated by the methods it calls.
- Sample rates are integers rather than doubles, and the NAN initialiser is not modelled.
- GetASIOSampleSize is defined outside the modelled files (its source is not part of this model). It is a parameter of the session: a width for each sample type, or none.
- GetSamplePosition is only logged in the callback, so the model leaves it out.
- Logging, PrintError, GetConfig and main's exit codes are left out.
- Callback.BufferSwitch: the preferred buffer size is a `nat`, where the driver reports a `long`.
- Transcoder.CopyInterleavedBufferToASIO requires at least one output channel and a positive sample size, because the source divides by their product. The session only reaches it with an output sample type, so with at least one output.
- Samples move as whole units: a channel half is an array of samples, not of bytes, and memcpy address arithmetic is not modelled.
- CFlexAsio.CFlexASIO.Enter: an ASIOException's what() is taken to be its message, and GetNestedExceptionMessage to be the std::exception's message. The trace log lines are left out.
- CFlexAsio.CFlexASIO.GetErrorMessage: each char of lastError stands for one byte of the C++ std::string, so the cut at 123 is a cut at 123 bytes. A non-ASCII message, whose characters take several bytes in the source, is not claimed to be cut at 123 characters.
- CFlexAsio.CFlexASIO.CanSampleRate: when the body lets out an ASIOException carrying ASE_OK, the source returns an uninitialised flag. In that case the contract leaves the result unconstrained.
- The inner FlexASIO methods behind EnterWithMethod are oracles: what escapes from them is a parameter. The forwarded entry points are all EnterInitialized with that outcome, so they have no members of their own.
- The COM/ATL machinery (COM map, registry resource, object entry) is platform plumbing and is not modelled. OpenControlPanel is modelled only as an action.

## Findings

| source | as written | input that shows it | evidently intended | confidence | as-written member | corrected member |
|---|---|---|---|---|---|---|
| src/flexasio/FlexASIO/cflexasio.cpp:126-127 | Before init, controlPanel opens the panel on its own and then calls ControlPanel through the empty `flexASIO` optional | controlPanel() called before init() | Open the standalone panel when there is no inner driver, and ask the inner driver otherwise | medium, not executed | CFlexAsio.ControlPanelAsWrittenUsesMissingDriver | CFlexAsio.CFlexASIO.ControlPanel |
