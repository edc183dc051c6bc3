/**
 * The parts of the ASIO driver interface that the test harness and the driver
 * facade rely on: sample-type codes, error codes, message selectors, and the
 * channel and buffer descriptors the driver hands out.
 * The numeric values are those of the ASIO SDK header asio.h.
 */
module Asio {
  import opened Base

  /** ASIOSampleType (a `long` in the SDK). */
  type SampleType = int

  const ASIOSTInt16MSB: SampleType := 0
  const ASIOSTInt24MSB: SampleType := 1
  const ASIOSTInt32MSB: SampleType := 2
  const ASIOSTFloat32MSB: SampleType := 3
  const ASIOSTFloat64MSB: SampleType := 4
  const ASIOSTInt16LSB: SampleType := 16
  const ASIOSTInt24LSB: SampleType := 17
  const ASIOSTInt32LSB: SampleType := 18
  const ASIOSTFloat32LSB: SampleType := 19
  const ASIOSTFloat64LSB: SampleType := 20

  /** The five big-endian sample types that have a file format counterpart. */
  const MsbTypes: set<SampleType> := {ASIOSTInt16MSB, ASIOSTInt24MSB, ASIOSTInt32MSB, ASIOSTFloat32MSB, ASIOSTFloat64MSB}
  /** Their little-endian counterparts. */
  const LsbTypes: set<SampleType> := {ASIOSTInt16LSB, ASIOSTInt24LSB, ASIOSTInt32LSB, ASIOSTFloat32LSB, ASIOSTFloat64LSB}

  /** In asio.h each little-endian code is its big-endian code plus 16. */
  function LittleEndianOf(t: SampleType): SampleType {
    if t in MsbTypes then t + 16 else t
  }

  /** ASIOError */
  type AsioError = int

  const ASE_OK: AsioError := 0
  const ASE_SUCCESS: AsioError := 0x3f4847a0
  const ASE_NotPresent: AsioError := -1000
  const ASE_HWMalfunction: AsioError := -999
  const ASE_InvalidParameter: AsioError := -998
  const ASE_InvalidMode: AsioError := -997
  const ASE_SPNotAdvancing: AsioError := -996
  const ASE_NoClock: AsioError := -995
  const ASE_NoMemory: AsioError := -994

  /** ASIOBool */
  const ASIOFalse: int := 0
  const ASIOTrue: int := 1

  /** Selectors of the host's asioMessage callback. */
  const kAsioSelectorSupported: int := 1
  const kAsioEngineVersion: int := 2
  const kAsioResetRequest: int := 3
  const kAsioBufferSizeChange: int := 4
  const kAsioResyncRequest: int := 5
  const kAsioLatenciesChanged: int := 6
  const kAsioSupportsTimeInfo: int := 7
  const kAsioSupportsTimeCode: int := 8

  /** ASIOChannelInfo, as filled in by the driver's getChannelInfo. */
  datatype ChannelInfo = ChannelInfo(
    channel: int,
    isInput: bool,
    isActive: bool,
    channelGroup: int,
    sampleType: SampleType,
    name: string)

  /**
   * One sample: the bytes of one value of the channel's sample type (2, 3, 4
   * or 8 bytes, according to the type). Buffers are moved sample by sample,
   * so a half of a double buffer is modelled as an array of samples.
   */
  type Sample = seq<byte>

  /**
   * ASIOBufferInfo: the direction and channel number the host asked for, and
   * the two halves of the channel's double buffer that the driver allocated.
   */
  datatype BufferInfo = BufferInfo(isInput: bool, channelNum: int, buffers: (array<Sample>, array<Sample>))
  {
    /** buffers[doubleBufferIndex] */
    function Half(doubleBufferIndex: nat): array<Sample>
      requires doubleBufferIndex < 2
    {
      if doubleBufferIndex == 0 then buffers.0 else buffers.1
    }
  }

  /** Every half of every channel is its own memory region. */
  predicate Disjoint(infos: seq<BufferInfo>) {
    forall i, j, h, h' ::
      0 <= i < |infos| && 0 <= j < |infos| && 0 <= h < 2 && 0 <= h' < 2 && (i != j || h != h') ==>
        infos[i].Half(h) != infos[j].Half(h')
  }
}
