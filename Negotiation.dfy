/**
 * Sample-type negotiation of the test harness (GetCommonSampleType): every
 * channel of one direction must use the same sample type.
 */
module Negotiation {
  import opened Base
  import opened Asio

  /** The two ways negotiation fails; both name the direction, the first names both types. */
  datatype NegotiationError =
    | MixedSampleTypes(input: bool, found: SampleType, other: SampleType)
    | NoChannels(input: bool)

  /** The channels of one direction, in their original order. */
  function OfDirection(infos: seq<ChannelInfo>, input: bool): (r: seq<ChannelInfo>)
    ensures forall c :: c in r <==> c in infos && c.isInput == input
  {
    if infos == [] then []
    else (if infos[0].isInput == input then [infos[0]] else []) + OfDirection(infos[1..], input)
  }

  /**
   * The fold over the channel list: `sampleType` is the type of the first
   * channel of the direction seen so far, if any.
   */
  function CommonFrom(infos: seq<ChannelInfo>, input: bool, sampleType: Option<SampleType>): Result<SampleType, NegotiationError>
  {
    if infos == [] then
      if sampleType.None? then Err(NoChannels(input)) else Ok(sampleType.value)
    else if infos[0].isInput != input then CommonFrom(infos[1..], input, sampleType)
    else if sampleType.None? then CommonFrom(infos[1..], input, Some(infos[0].sampleType))
    else if sampleType.value != infos[0].sampleType then
      Err(MixedSampleTypes(input, sampleType.value, infos[0].sampleType))
    else CommonFrom(infos[1..], input, sampleType)
  }

  function GetCommonSampleType(infos: seq<ChannelInfo>, input: bool): Result<SampleType, NegotiationError> {
    CommonFrom(infos, input, None)
  }

  /** Channels of the other direction play no part in the fold. */
  lemma {:induction false} CommonFromIgnoresOtherDirection(infos: seq<ChannelInfo>, input: bool, sampleType: Option<SampleType>)
    ensures CommonFrom(infos, input, sampleType) == CommonFrom(OfDirection(infos, input), input, sampleType)
  {
    if infos != [] {
      var rest := OfDirection(infos[1..], input);
      if infos[0].isInput == input {
        var ds := [infos[0]] + rest;
        assert OfDirection(infos, input) == ds;
        assert ds[0] == infos[0] && ds[1..] == rest;
        var next := if sampleType.None? then Some(infos[0].sampleType) else sampleType;
        CommonFromIgnoresOtherDirection(infos[1..], input, next);
      } else {
        assert OfDirection(infos, input) == rest;
        CommonFromIgnoresOtherDirection(infos[1..], input, sampleType);
      }
    }
  }

  /** Once a type is known, a list of one direction either agrees with it or fails at its first different type. */
  lemma {:induction false} CommonFromKnown(ds: seq<ChannelInfo>, input: bool, a: SampleType)
    requires forall k :: 0 <= k < |ds| ==> ds[k].isInput == input
    ensures var r := CommonFrom(ds, input, Some(a));
      && (r.Ok? <==> forall k :: 0 <= k < |ds| ==> ds[k].sampleType == a)
      && (r.Ok? ==> r.value == a)
      && (r.Err? ==>
            && r.error.MixedSampleTypes? && r.error.input == input && r.error.found == a && r.error.other != a
            && exists m :: 0 <= m < |ds| && ds[m].sampleType == r.error.other
                 && forall j :: 0 <= j < m ==> ds[j].sampleType == a)
  {
    if ds != [] && ds[0].sampleType == a {
      CommonFromKnown(ds[1..], input, a);
      var r := CommonFrom(ds[1..], input, Some(a));
      if r.Err? {
        var m :| 0 <= m < |ds[1..]| && ds[1..][m].sampleType == r.error.other && forall j :: 0 <= j < m ==> ds[1..][j].sampleType == a;
        assert ds[m + 1].sampleType == r.error.other;
        assert forall j :: 0 <= j < m + 1 ==> ds[j].sampleType == a by {
          forall j | 0 <= j < m + 1 ensures ds[j].sampleType == a {
            if j > 0 { assert ds[j] == ds[1..][j - 1]; }
          }
        }
      } else {
        assert forall k :: 0 <= k < |ds| ==> ds[k].sampleType == a by {
          forall k | 0 <= k < |ds| ensures ds[k].sampleType == a {
            if k > 0 { assert ds[k] == ds[1..][k - 1]; }
          }
        }
      }
    }
  }

  /**
   * Negotiation for one direction: with `ds` the channels of that direction,
   * it fails with NoChannels exactly when there are none, succeeds exactly
   * when they all share one type (which it returns), and otherwise names the
   * first channel's type and the first type that differs from it.
   */
  lemma CommonSampleTypeSpec(infos: seq<ChannelInfo>, input: bool)
    ensures var r := GetCommonSampleType(infos, input);
      var ds := OfDirection(infos, input);
      && (r == Err(NoChannels(input)) <==> ds == [])
      && (r.Ok? <==> ds != [] && forall k :: 0 <= k < |ds| ==> ds[k].sampleType == ds[0].sampleType)
      && (r.Ok? ==> r.value == ds[0].sampleType)
      && (r.Err? ==> r.error.input == input)
      && (r.Err? && r.error.MixedSampleTypes? ==>
            && ds != []
            && r.error.found == ds[0].sampleType
            && r.error.other != r.error.found
            && exists m :: 0 < m < |ds| && ds[m].sampleType == r.error.other
                 && forall j :: 0 <= j < m ==> ds[j].sampleType == r.error.found)
  {
    var ds := OfDirection(infos, input);
    CommonFromIgnoresOtherDirection(infos, input, None);
    if ds != [] {
      assert forall k :: 0 <= k < |ds| ==> ds[k].isInput == input by {
        forall k | 0 <= k < |ds| ensures ds[k].isInput == input {
          assert ds[k] in ds;
        }
      }
      var a := ds[0].sampleType;
      CommonFromKnown(ds[1..], input, a);
      var r := CommonFrom(ds[1..], input, Some(a));
      if r.Err? {
        var m :| 0 <= m < |ds[1..]| && ds[1..][m].sampleType == r.error.other && forall j :: 0 <= j < m ==> ds[1..][j].sampleType == a;
        assert ds[m + 1].sampleType == r.error.other;
        assert forall j :: 0 <= j < m + 1 ==> ds[j].sampleType == a by {
          forall j | 0 <= j < m + 1 ensures ds[j].sampleType == a {
            if j > 0 { assert ds[j] == ds[1..][j - 1]; }
          }
        }
      } else {
        assert forall k :: 0 <= k < |ds| ==> ds[k].sampleType == a by {
          forall k | 0 <= k < |ds| ensures ds[k].sampleType == a {
            if k > 0 { assert ds[k] == ds[1..][k - 1]; }
          }
        }
      }
    }
  }

  /** Adding a channel of the other direction anywhere does not change the outcome. */
  lemma IgnoresOtherDirection(infos: seq<ChannelInfo>, input: bool, extra: ChannelInfo, pos: nat)
    requires pos <= |infos| && extra.isInput != input
    ensures GetCommonSampleType(infos[..pos] + [extra] + infos[pos..], input) == GetCommonSampleType(infos, input)
  {
    var grown := infos[..pos] + [extra] + infos[pos..];
    CommonFromIgnoresOtherDirection(grown, input, None);
    CommonFromIgnoresOtherDirection(infos, input, None);
    OfDirectionSkips(infos[..pos], extra, infos[pos..], input);
    assert infos[..pos] + infos[pos..] == infos;
  }

  lemma {:induction false} OfDirectionSkips(front: seq<ChannelInfo>, extra: ChannelInfo, back: seq<ChannelInfo>, input: bool)
    requires extra.isInput != input
    ensures OfDirection(front + [extra] + back, input) == OfDirection(front + back, input)
  {
    if front == [] {
      assert front + [extra] + back == [extra] + back;
      assert ([extra] + back)[1..] == back;
      assert front + back == back;
    } else {
      OfDirectionSkips(front[1..], extra, back, input);
      assert (front + [extra] + back)[1..] == front[1..] + [extra] + back;
      assert (front + back)[1..] == front[1..] + back;
    }
  }
}
