/**
 * The run bookkeeping of the test harness: the outcome of a run, which the
 * first writer decides; the buffer switch counter that declares success
 * after 30 switches; the host's answers to the driver's asioMessage
 * queries; and the single slot through which the driver's plain function
 * callbacks reach the harness's callback objects.
 */
module RunControl {
  import opened Base
  import opened Asio
  import opened SampleFormat

  datatype Outcome = Success | Failure

  /** bufferSwitchCountThreshold */
  const BufferSwitchCountThreshold: nat := 30

  /** setOutcome as a function of the outcome so far: the first outcome set stays. */
  function Settled(outcome: Option<Outcome>, newOutcome: Outcome): (r: Option<Outcome>)
    ensures r.Some?
    ensures outcome.Some? ==> r == outcome
    ensures outcome.None? ==> r == Some(newOutcome)
  {
    if outcome.Some? then outcome else Some(newOutcome)
  }

  /** Once an outcome is set, no sequence of later requests changes it. */
  lemma {:induction false} SettledStays(outcome: Outcome, requests: seq<Outcome>)
    ensures SettleAll(Some(outcome), requests) == Some(outcome)
    decreases |requests|
  {
    if requests != [] {
      SettledStays(outcome, requests[1..]);
    }
  }

  /** The outcome after a series of setOutcome calls. */
  function SettleAll(outcome: Option<Outcome>, requests: seq<Outcome>): Option<Outcome>
    decreases |requests|
  {
    if requests == [] then outcome else SettleAll(Settled(outcome, requests[0]), requests[1..])
  }

  /** Starting from no outcome, a series of requests ends with the first one. */
  lemma FirstRequestWins(requests: seq<Outcome>)
    requires requests != []
    ensures SettleAll(None, requests) == Some(requests[0])
  {
    SettledStays(requests[0], requests[1..]);
  }

  /**
   * The state the buffer switch callbacks share with the session: the
   * outcome (guarded by a mutex in the source) and the number of completed
   * buffer switches.
   */
  class RunState {
    var outcome: Option<Outcome>
    var bufferSwitchCount: nat

    constructor ()
      ensures outcome == None && bufferSwitchCount == 0
    {
      outcome := None;
      bufferSwitchCount := 0;
    }

    /** setOutcome: records the outcome unless one is already there; `notified` says whether waiters were woken. */
    method SetOutcome(newOutcome: Outcome) returns (notified: bool)
      modifies this
      ensures outcome == Settled(old(outcome), newOutcome)
      ensures notified <==> old(outcome).None?
      ensures bufferSwitchCount == old(bufferSwitchCount)
    {
      if outcome.Some? {
        return false;
      }
      outcome := Some(newOutcome);
      notified := true;
    }

    /** incrementBufferSwitchCount: counts a switch, and asks for success from the 30th on. */
    method IncrementBufferSwitchCount()
      modifies this
      ensures bufferSwitchCount == old(bufferSwitchCount) + 1
      ensures outcome == AfterSwitch(old(outcome), bufferSwitchCount)
    {
      bufferSwitchCount := bufferSwitchCount + 1;
      if bufferSwitchCount < BufferSwitchCountThreshold {
        return;
      }
      var _ := SetOutcome(Success);
    }
  }

  /** The outcome after the count-th completed buffer switch. */
  function AfterSwitch(outcome: Option<Outcome>, count: nat): Option<Outcome> {
    if count < BufferSwitchCountThreshold then outcome else Settled(outcome, Success)
  }

  /**
   * One buffer switch callback as the session sees it: it either completes
   * (and counts) or throws, and then asks for failure.
   */
  function Step(outcome: Option<Outcome>, count: nat, threw: bool): (Option<Outcome>, nat) {
    if threw then (Settled(outcome, Failure), count) else (AfterSwitch(outcome, count + 1), count + 1)
  }

  /** The outcome and count after a series of callbacks, `threw[k]` telling whether callback k threw. */
  function Run(outcome: Option<Outcome>, count: nat, threw: seq<bool>): (Option<Outcome>, nat)
    decreases |threw|
  {
    if threw == [] then (outcome, count)
    else
      var next := Step(outcome, count, threw[0]);
      Run(next.0, next.1, threw[1..])
  }

  /** The first `k` callbacks all completed. */
  predicate AllCompleted(threw: seq<bool>, k: nat)
    requires k <= |threw|
  {
    forall i :: 0 <= i < k ==> !threw[i]
  }

  /** One of the first `need` callbacks throws, and all before it completed. */
  predicate ThrowsFirst(threw: seq<bool>, need: nat) {
    exists i :: 0 <= i < |threw| && i < need && threw[i] && AllCompleted(threw, i)
  }

  /**
   * Running the callbacks from no outcome and `count` completed switches
   * (below the threshold): the run succeeds exactly when the callbacks that
   * bring the count to 30 all complete, fails exactly when one of them
   * throws first, and otherwise has no outcome yet.
   */
  predicate RunSpec(count: nat, threw: seq<bool>)
    requires count < BufferSwitchCountThreshold
  {
    var need := BufferSwitchCountThreshold - count;
    var r := Run(None, count, threw).0;
    && (r == Some(Success) <==> need <= |threw| && AllCompleted(threw, need))
    && (r == Some(Failure) <==> ThrowsFirst(threw, need))
    && (r.None? <==> |threw| < need && AllCompleted(threw, |threw|))
  }

  /** The outcome of any series of buffer switch callbacks, as RunSpec states it. */
  lemma {:induction false} RunOutcome(count: nat, threw: seq<bool>)
    requires count < BufferSwitchCountThreshold
    ensures RunSpec(count, threw)
    decreases |threw|
  {
    if threw == [] {
    } else if threw[0] {
      RunOutcomeThrows(count, threw);
    } else if count + 1 == BufferSwitchCountThreshold {
      RunOutcomeLast(count, threw);
    } else {
      RunOutcome(count + 1, threw[1..]);
      RunOutcomeStep(count, threw);
    }
  }

  lemma RunOutcomeThrows(count: nat, threw: seq<bool>)
    requires count < BufferSwitchCountThreshold && threw != [] && threw[0]
    ensures RunSpec(count, threw)
  {
    var need := BufferSwitchCountThreshold - count;
    assert Run(None, count, threw) == Run(Some(Failure), count, threw[1..]);
    RunSettled(Failure, count, threw[1..]);
    assert threw[0] && AllCompleted(threw, 0);
    if need <= |threw| {
      assert !AllCompleted(threw, need);
    }
  }

  lemma RunOutcomeLast(count: nat, threw: seq<bool>)
    requires count + 1 == BufferSwitchCountThreshold && threw != [] && !threw[0]
    ensures RunSpec(count, threw)
  {
    assert Run(None, count, threw) == Run(Some(Success), count + 1, threw[1..]);
    RunSettled(Success, count + 1, threw[1..]);
    assert AllCompleted(threw, 1);
    NoThrowFirst(threw);
  }

  lemma RunOutcomeStep(count: nat, threw: seq<bool>)
    requires count + 1 < BufferSwitchCountThreshold && threw != [] && !threw[0]
    requires RunSpec(count + 1, threw[1..])
    ensures RunSpec(count, threw)
  {
    var need := BufferSwitchCountThreshold - count;
    assert Run(None, count, threw) == Run(None, count + 1, threw[1..]);
    ThrowsFirstTail(threw, need);
    AllCompletedTail(threw, |threw|);
    if need <= |threw| {
      AllCompletedTail(threw, need);
    }
  }

  lemma NoThrowFirst(threw: seq<bool>)
    requires threw != [] && !threw[0]
    ensures !ThrowsFirst(threw, 1)
  {
  }

  lemma AllCompletedTail(threw: seq<bool>, k: nat)
    requires 1 <= k <= |threw|
    ensures AllCompleted(threw, k) <==> !threw[0] && AllCompleted(threw[1..], k - 1)
  {
    assert forall i :: 1 <= i < k ==> threw[i] == threw[1..][i - 1];
  }

  lemma ThrowsFirstTail(threw: seq<bool>, need: nat)
    requires threw != [] && !threw[0] && need >= 1
    ensures ThrowsFirst(threw, need) <==> ThrowsFirst(threw[1..], need - 1)
  {
    var tail := threw[1..];
    if ThrowsFirst(tail, need - 1) {
      var i :| 0 <= i < |tail| && i < need - 1 && tail[i] && AllCompleted(tail, i);
      AllCompletedTail(threw, i + 1);
      assert threw[i + 1] && AllCompleted(threw, i + 1);
    }
    if ThrowsFirst(threw, need) {
      var i :| 0 <= i < |threw| && i < need && threw[i] && AllCompleted(threw, i);
      assert i > 0;
      AllCompletedTail(threw, i);
      assert tail[i - 1] && AllCompleted(tail, i - 1);
    }
  }

  /** After an outcome is set, further callbacks only move the count. */
  lemma {:induction false} RunSettled(outcome: Outcome, count: nat, threw: seq<bool>)
    ensures Run(Some(outcome), count, threw).0 == Some(outcome)
    decreases |threw|
  {
    if threw != [] {
      var next := Step(Some(outcome), count, threw[0]);
      assert next.0 == Some(outcome);
      RunSettled(outcome, next.1, threw[1..]);
    }
  }

  /**
   * The driver calling bufferSwitch once per element of `threw`, each call
   * either completing (and counting) or throwing (and asking for failure).
   */
  method DeliverCallbacks(state: RunState, threw: seq<bool>)
    modifies state
    ensures (state.outcome, state.bufferSwitchCount) == Run(old(state.outcome), old(state.bufferSwitchCount), threw)
  {
    var k := 0;
    while k < |threw|
      invariant k <= |threw|
      invariant Run(state.outcome, state.bufferSwitchCount, threw[k..]) == Run(old(state.outcome), old(state.bufferSwitchCount), threw)
    {
      assert threw[k..][1..] == threw[k + 1..];
      if threw[k] {
        var _ := state.SetOutcome(Failure);
      } else {
        state.IncrementBufferSwitchCount();
      }
      k := k + 1;
    }
  }

  /**
   * The host's message handlers, looked up by selector
   * (message_selector_handlers).
   */
  datatype MessageHandler = SelectorSupported | SupportsTimeInfo

  const MessageSelectorHandlers: seq<(int, MessageHandler)> := [
    (kAsioSelectorSupported, SelectorSupported),
    (kAsioSupportsTimeInfo, SupportsTimeInfo)
  ]

  /** HandleASIOMessage: the handler of the selector answers; an unknown selector gets 0. */
  function HandleASIOMessage(selector: int, value: int): int {
    var handler := Find(selector, MessageSelectorHandlers);
    if handler.None? then 0
    else match handler.value
      case SelectorSupported => if Find(value, MessageSelectorHandlers).Some? then 1 else 0
      case SupportsTimeInfo => 1
  }

  /**
   * The host supports exactly two selectors: asked whether a selector is
   * supported it says yes for those two, it says yes to time info, and it
   * answers 0 to everything else.
   */
  lemma HandleASIOMessageSpec(selector: int, value: int)
    ensures HandleASIOMessage(selector, value) ==
      if selector == kAsioSelectorSupported then
        (if value == kAsioSelectorSupported || value == kAsioSupportsTimeInfo then 1 else 0)
      else if selector == kAsioSupportsTimeInfo then 1
      else 0
  {
    HandlerCases(selector);
    HandlerCases(value);
  }

  lemma HandlerCases(selector: int)
    ensures Find(selector, MessageSelectorHandlers) ==
      if selector == kAsioSelectorSupported then Some(SelectorSupported)
      else if selector == kAsioSupportsTimeInfo then Some(SupportsTimeInfo)
      else None
  {
    var tbl := MessageSelectorHandlers;
    assert FindFrom(selector, tbl, 0) == if selector == tbl[0].0 then Some(tbl[0].1) else FindFrom(selector, tbl, 1);
    assert FindFrom(selector, tbl, 1) == if selector == tbl[1].0 then Some(tbl[1].1) else FindFrom(selector, tbl, 2);
  }

  /**
   * Callbacks::global: the one callback object the driver's callbacks reach.
   * Objects are named by an id; `aborted` stands for the source's abort().
   */
  class CallbackSlot {
    var global: Option<nat>

    constructor ()
      ensures global == None
    {
      global := None;
    }

    /** The Callbacks constructor: claims the slot, which must be free. */
    method Register(callbacks: nat) returns (aborted: bool)
      modifies this
      ensures aborted <==> old(global).Some?
      ensures global == if aborted then old(global) else Some(callbacks)
    {
      if global.Some? {
        return true;
      }
      global := Some(callbacks);
      aborted := false;
    }

    /** The Callbacks destructor: frees the slot, which must hold this object. */
    method Unregister(callbacks: nat) returns (aborted: bool)
      modifies this
      ensures aborted <==> old(global) != Some(callbacks)
      ensures global == if aborted then old(global) else None
    {
      if global != Some(callbacks) {
        return true;
      }
      global := None;
      aborted := false;
    }

    /**
     * The plain callback the driver calls: aborts the process when no object
     * is registered, and otherwise forwards the call to the registered one.
     */
    method Target() returns (aborted: bool, target: nat)
      ensures aborted <==> global.None?
      ensures !aborted ==> global == Some(target)
    {
      if global.None? {
        return true, 0;
      }
      aborted, target := false, global.value;
    }
  }
}
