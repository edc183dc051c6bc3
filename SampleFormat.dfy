/**
 * Bridging between ASIO sample types and libsndfile format codes
 * (FlexASIOTest's ASIOSampleTypeToSfFormatType / SfFormatToASIOSampleType).
 * libsndfile format codes are C `int`s used as bit fields; they are modelled
 * as 32-bit vectors so that the masking is literal. The numeric values are
 * those of the libsndfile header sndfile.h.
 */
module SampleFormat {
  import opened Base
  import opened Asio

  type SfFormat = bv32

  const SF_FORMAT_WAVEX: SfFormat := 0x130000
  const SF_FORMAT_PCM_16: SfFormat := 0x0002
  const SF_FORMAT_PCM_24: SfFormat := 0x0003
  const SF_FORMAT_PCM_32: SfFormat := 0x0004
  const SF_FORMAT_FLOAT: SfFormat := 0x0006
  const SF_FORMAT_DOUBLE: SfFormat := 0x0007
  const SF_FORMAT_SUBMASK: SfFormat := 0x0000FFFF
  const SF_FORMAT_TYPEMASK: SfFormat := 0x0FFF0000
  const SF_ENDIAN_LITTLE: SfFormat := 0x10000000
  const SF_ENDIAN_BIG: SfFormat := 0x20000000

  /**
   * Lookup of a key in a table of pairs, as the harness's Find helper does
   * over an initializer list: the value of the first matching entry, if any.
   */
  function Find<K(==), V>(key: K, table: seq<(K, V)>): (r: Option<V>)
  {
    FindFrom(key, table, 0)
  }

  /** Find, scanning the table from position `from` on. */
  function FindFrom<K(==), V>(key: K, table: seq<(K, V)>, from: nat): (r: Option<V>)
    requires from <= |table|
    decreases |table| - from
  {
    if from == |table| then None
    else if table[from].0 == key then Some(table[from].1)
    else FindFrom(key, table, from + 1)
  }

  /** Find yields the value of the first entry whose key matches, and nothing when no key matches. */
  lemma {:induction false} FindIsFirstMatch<K, V>(key: K, table: seq<(K, V)>, from: nat)
    requires from <= |table|
    ensures FindFrom(key, table, from).None? <==> forall i :: from <= i < |table| ==> table[i].0 != key
    ensures FindFrom(key, table, from).Some? ==>
      exists i :: from <= i < |table| && table[i] == (key, FindFrom(key, table, from).value) &&
        forall j :: from <= j < i ==> table[j].0 != key
    decreases |table| - from
  {
    if from < |table| && table[from].0 != key {
      FindIsFirstMatch(key, table, from + 1);
    }
  }

  /** The output file format chosen for each ASIO sample type. */
  const OutputFormats: seq<(SampleType, SfFormat)> := [
    (ASIOSTInt16MSB, SF_FORMAT_PCM_16 | SF_ENDIAN_BIG),
    (ASIOSTInt24MSB, SF_FORMAT_PCM_24 | SF_ENDIAN_BIG),
    (ASIOSTInt32MSB, SF_FORMAT_PCM_32 | SF_ENDIAN_BIG),
    (ASIOSTFloat32MSB, SF_FORMAT_FLOAT | SF_ENDIAN_BIG),
    (ASIOSTFloat64MSB, SF_FORMAT_DOUBLE | SF_ENDIAN_BIG),
    (ASIOSTInt16LSB, SF_FORMAT_PCM_16 | SF_ENDIAN_LITTLE),
    (ASIOSTInt24LSB, SF_FORMAT_PCM_24 | SF_ENDIAN_LITTLE),
    (ASIOSTInt32LSB, SF_FORMAT_PCM_32 | SF_ENDIAN_LITTLE),
    (ASIOSTFloat32LSB, SF_FORMAT_FLOAT | SF_ENDIAN_LITTLE),
    (ASIOSTFloat64LSB, SF_FORMAT_DOUBLE | SF_ENDIAN_LITTLE)
  ]

  /** The ASIO sample type read from each libsndfile subformat; always little-endian. */
  const InputFormats: seq<(SfFormat, SampleType)> := [
    (SF_FORMAT_PCM_16, ASIOSTInt16LSB),
    (SF_FORMAT_PCM_24, ASIOSTInt24LSB),
    (SF_FORMAT_PCM_32, ASIOSTInt32LSB),
    (SF_FORMAT_FLOAT, ASIOSTFloat32LSB),
    (SF_FORMAT_DOUBLE, ASIOSTFloat64LSB)
  ]

  function ASIOSampleTypeToSfFormatType(sampleType: SampleType): Option<SfFormat> {
    Find(sampleType, OutputFormats)
  }

  /** Big-endian files are not recognised: only the subformat bits are looked at. */
  function SfFormatToASIOSampleType(sfFormat: SfFormat): Option<SampleType> {
    Find(sfFormat & SF_FORMAT_SUBMASK, InputFormats)
  }

  /** The table of ASIOSampleTypeToSfFormatType written out case by case. */
  lemma {:induction false} OutputFormatCases(t: SampleType)
    ensures ASIOSampleTypeToSfFormatType(t) ==
      if t == ASIOSTInt16MSB then Some(0x20000002)
      else if t == ASIOSTInt24MSB then Some(0x20000003)
      else if t == ASIOSTInt32MSB then Some(0x20000004)
      else if t == ASIOSTFloat32MSB then Some(0x20000006)
      else if t == ASIOSTFloat64MSB then Some(0x20000007)
      else if t == ASIOSTInt16LSB then Some(0x10000002)
      else if t == ASIOSTInt24LSB then Some(0x10000003)
      else if t == ASIOSTInt32LSB then Some(0x10000004)
      else if t == ASIOSTFloat32LSB then Some(0x10000006)
      else if t == ASIOSTFloat64LSB then Some(0x10000007)
      else None
  {
    var tbl := OutputFormats;
    assert tbl == [(0, 0x20000002), (1, 0x20000003), (2, 0x20000004), (3, 0x20000006), (4, 0x20000007),
                   (16, 0x10000002), (17, 0x10000003), (18, 0x10000004), (19, 0x10000006), (20, 0x10000007)];
    assert FindFrom(t, tbl, 0) == if t == 0 then Some(0x20000002) else FindFrom(t, tbl, 1);
    assert FindFrom(t, tbl, 1) == if t == 1 then Some(0x20000003) else FindFrom(t, tbl, 2);
    assert FindFrom(t, tbl, 2) == if t == 2 then Some(0x20000004) else FindFrom(t, tbl, 3);
    assert FindFrom(t, tbl, 3) == if t == 3 then Some(0x20000006) else FindFrom(t, tbl, 4);
    assert FindFrom(t, tbl, 4) == if t == 4 then Some(0x20000007) else FindFrom(t, tbl, 5);
    assert FindFrom(t, tbl, 5) == if t == 16 then Some(0x10000002) else FindFrom(t, tbl, 6);
    assert FindFrom(t, tbl, 6) == if t == 17 then Some(0x10000003) else FindFrom(t, tbl, 7);
    assert FindFrom(t, tbl, 7) == if t == 18 then Some(0x10000004) else FindFrom(t, tbl, 8);
    assert FindFrom(t, tbl, 8) == if t == 19 then Some(0x10000006) else FindFrom(t, tbl, 9);
    assert FindFrom(t, tbl, 9) == if t == 20 then Some(0x10000007) else FindFrom(t, tbl, 10);
    assert FindFrom(t, tbl, 10) == None;
  }

  /** The table of SfFormatToASIOSampleType written out case by case on the subformat. */
  lemma {:induction false} InputFormatCases(f: SfFormat)
    ensures SfFormatToASIOSampleType(f) ==
      var sub := f & SF_FORMAT_SUBMASK;
      if sub == 2 then Some(ASIOSTInt16LSB)
      else if sub == 3 then Some(ASIOSTInt24LSB)
      else if sub == 4 then Some(ASIOSTInt32LSB)
      else if sub == 6 then Some(ASIOSTFloat32LSB)
      else if sub == 7 then Some(ASIOSTFloat64LSB)
      else None
  {
    var tbl := InputFormats;
    var sub := f & SF_FORMAT_SUBMASK;
    assert FindFrom(sub, tbl, 0) == if sub == tbl[0].0 then Some(tbl[0].1) else FindFrom(sub, tbl, 1);
    assert FindFrom(sub, tbl, 1) == if sub == tbl[1].0 then Some(tbl[1].1) else FindFrom(sub, tbl, 2);
    assert FindFrom(sub, tbl, 2) == if sub == tbl[2].0 then Some(tbl[2].1) else FindFrom(sub, tbl, 3);
    assert FindFrom(sub, tbl, 3) == if sub == tbl[3].0 then Some(tbl[3].1) else FindFrom(sub, tbl, 4);
    assert FindFrom(sub, tbl, 4) == if sub == tbl[4].0 then Some(tbl[4].1) else FindFrom(sub, tbl, 5);
    assert FindFrom(sub, tbl, 5) == None;
  }

  /** An output format exists for exactly the ten listed sample types. */
  lemma OutputFormatDomain(t: SampleType)
    ensures ASIOSampleTypeToSfFormatType(t).Some? <==> t in MsbTypes || t in LsbTypes
  {
    OutputFormatCases(t);
  }

  /** Distinct sample types get distinct output formats. */
  lemma OutputFormatInjective(a: SampleType, b: SampleType)
    requires ASIOSampleTypeToSfFormatType(a).Some?
    requires ASIOSampleTypeToSfFormatType(a) == ASIOSampleTypeToSfFormatType(b)
    ensures a == b
  {
    OutputFormatCases(a);
    OutputFormatCases(b);
  }

  /** The input direction looks only at the subformat bits: container and endianness bits are ignored. */
  lemma InputFormatIgnoresUpperBits(f: SfFormat, g: SfFormat)
    requires f & SF_FORMAT_SUBMASK == g & SF_FORMAT_SUBMASK
    ensures SfFormatToASIOSampleType(f) == SfFormatToASIOSampleType(g)
  {
    InputFormatCases(f);
    InputFormatCases(g);
  }

  /** Whatever the file reports, a recognised format reads as a little-endian sample type. */
  lemma InputFormatIsLittleEndian(f: SfFormat)
    ensures SfFormatToASIOSampleType(f).Some? ==> SfFormatToASIOSampleType(f).value in LsbTypes
  {
    InputFormatCases(f);
  }

  /**
   * Writing a sample type to a file and reading the file's format back gives
   * the same type for little-endian types and the little-endian counterpart
   * for big-endian ones.
   */
  lemma FormatRoundTrip(t: SampleType)
    requires t in MsbTypes || t in LsbTypes
    ensures ASIOSampleTypeToSfFormatType(t).Some?
    ensures SfFormatToASIOSampleType(ASIOSampleTypeToSfFormatType(t).value) == Some(LittleEndianOf(t))
  {
    OutputFormatCases(t);
    InputFormatCases(ASIOSampleTypeToSfFormatType(t).value);
  }
}
