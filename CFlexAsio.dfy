/*
 * The driver facade (CFlexASIO): the object the ASIO host talks to. It is
 * either uninitialised or holds the inner FlexASIO driver, and it remembers
 * the text of the last error. Every entry point runs its body through Enter,
 * which turns an exception into an ASIO error code and records its message.
 *
 * The inner driver is an oracle: what one of its methods does is given as
 * the exception it throws, if any.
 */
module CFlexAsio {
  import opened Base
  import opened Asio

  /** An exception escaping an entry point's body. */
  datatype Thrown =
    | ASIOException(code: AsioError, message: string)
    | StdException(message: string)
    | UnknownException

  /** The longest error message getErrorMessage hands out, before its terminating NUL. */
  const MaxErrorMessageSize: nat := 123

  /** The code Enter returns for the body's outcome. */
  function EnterResult(thrown: Option<Thrown>): AsioError {
    match thrown
    case None => ASE_OK
    case Some(ASIOException(code, _)) => code
    case Some(_) => ASE_HWMalfunction
  }

  /** The text Enter records for an exception. */
  function ErrorText(thrown: Thrown): string {
    match thrown
    case ASIOException(_, message) => message
    case StdException(message) => message
    case UnknownException => "unknown exception"
  }

  /**
   * Enter reports failure exactly when the body threw, provided no ASIO
   * exception carries the success code; an exception that is not an ASIO
   * exception is always a hardware malfunction.
   */
  lemma EnterResultSpec(thrown: Option<Thrown>)
    requires thrown.Some? && thrown.value.ASIOException? ==> thrown.value.code != ASE_OK
    ensures EnterResult(thrown) == ASE_OK <==> thrown.None?
    ensures EnterResult(thrown) == ASE_HWMalfunction <==>
      thrown.Some? && (!thrown.value.ASIOException? || thrown.value.code == ASE_HWMalfunction)
  {
  }

  /** The two things controlPanel can do: open the control panel on its own, or ask the inner driver to open it. */
  datatype PanelAction = OpenStandalonePanel | InnerControlPanel

  /**
   * controlPanel as written: before init it opens the panel on its own and
   * then goes on to ask the inner driver as well, whether or not there is one.
   */
  function ControlPanelAsWritten(initialized: bool): seq<PanelAction> {
    (if initialized then [] else [OpenStandalonePanel]) + [InnerControlPanel]
  }

  /** Called before init, the code as written reaches the inner driver's control panel while there is no inner driver. */
  lemma ControlPanelAsWrittenUsesMissingDriver()
    ensures ControlPanelAsWritten(false) == [OpenStandalonePanel, InnerControlPanel]
  {
  }

  /**
   * controlPanel as evidently intended: exactly one panel opens, the inner
   * driver's exactly when there is an inner driver.
   */
  function ControlPanelActions(initialized: bool): (r: seq<PanelAction>)
    ensures |r| == 1
    ensures InnerControlPanel in r <==> initialized
    ensures OpenStandalonePanel in r <==> !initialized
  {
    if initialized then [InnerControlPanel] else [OpenStandalonePanel]
  }

  /** Once the driver is initialised, the correction changes nothing. */
  lemma ControlPanelCorrectionAgrees()
    ensures ControlPanelActions(true) == ControlPanelAsWritten(true)
  {
  }

  /** The inner FlexASIO driver, created by init from the host's system handle. */
  datatype FlexASIO = FlexASIO(sysHandle: int)

  /** One source of ASIOClockSource, as getClockSources fills it in. */
  class ClockSource {
    var index: int
    var associatedChannel: int
    var associatedGroup: int
    var isCurrentSource: int
    var name: string

    constructor ()
      ensures index == 0 && associatedChannel == 0 && associatedGroup == 0 && isCurrentSource == ASIOFalse && name == ""
    {
      index := 0;
      associatedChannel := 0;
      associatedGroup := 0;
      isCurrentSource := ASIOFalse;
      name := "";
    }
  }

  /** A `long` the host passes by address. */
  class LongCell {
    var value: int

    constructor (value: int)
      ensures this.value == value
    {
      this.value := value;
    }
  }

  class CFlexASIO {
    var lastError: string
    var flexASIO: Option<FlexASIO>

    constructor ()
      ensures lastError == "" && flexASIO.None?
    {
      lastError := "";
      flexASIO := None;
    }

    /**
     * Enter: the body has run and `thrown` is what escaped it. Success leaves
     * the last error alone; an exception's text becomes the last error.
     */
    method Enter(thrown: Option<Thrown>) returns (result: AsioError)
      modifies this
      ensures result == EnterResult(thrown)
      ensures lastError == if thrown.None? then old(lastError) else ErrorText(thrown.value)
      ensures flexASIO == old(flexASIO)
    {
      match thrown {
        case None =>
          result := ASE_OK;
        case Some(ASIOException(code, message)) =>
          lastError := message;
          result := code;
        case Some(StdException(message)) =>
          lastError := message;
          result := ASE_HWMalfunction;
        case Some(UnknownException) =>
          lastError := "unknown exception";
          result := ASE_HWMalfunction;
      }
    }

    /**
     * EnterInitialized (and EnterWithMethod, which only wraps it): before
     * init the body is not run and the call fails with ASE_InvalidMode;
     * afterwards the body runs and `outcome` is what escapes it.
     */
    method EnterInitialized(context: string, outcome: Option<Thrown>) returns (result: AsioError, invoked: bool)
      modifies this
      ensures invoked <==> old(flexASIO).Some?
      ensures !invoked ==>
        && result == ASE_InvalidMode
        && lastError == "entered " + context + " but uninitialized state"
      ensures invoked ==>
        && result == EnterResult(outcome)
        && lastError == if outcome.None? then old(lastError) else ErrorText(outcome.value)
      ensures flexASIO == old(flexASIO)
    {
      var thrown: Option<Thrown>;
      if flexASIO.None? {
        thrown := Some(ASIOException(ASE_InvalidMode, "entered " + context + " but uninitialized state"));
        invoked := false;
      } else {
        thrown := outcome;
        invoked := true;
      }
      result := Enter(thrown);
    }

    /**
     * init: the first call creates the inner driver, whose construction may
     * throw; any later call fails and keeps the driver it already has.
     */
    method Init(sysHandle: int, construction: Option<Thrown>) returns (ok: int)
      modifies this
      ensures old(flexASIO).Some? ==>
        && ok == ASIOFalse && flexASIO == old(flexASIO)
        && lastError == "init() called more than once"
      ensures old(flexASIO).None? && construction.None? ==>
        ok == ASIOTrue && flexASIO == Some(FlexASIO(sysHandle)) && lastError == old(lastError)
      ensures old(flexASIO).None? && construction.Some? ==>
        && flexASIO.None? && lastError == ErrorText(construction.value)
        && (ok == ASIOTrue <==> EnterResult(construction) == ASE_OK)
    {
      var thrown: Option<Thrown>;
      if flexASIO.Some? {
        thrown := Some(ASIOException(ASE_InvalidMode, "init() called more than once"));
      } else {
        thrown := construction;
        if construction.None? {
          flexASIO := Some(FlexASIO(sysHandle));
        }
      }
      var result := Enter(thrown);
      ok := if result == ASE_OK then ASIOTrue else ASIOFalse;
    }

    /** getDriverName: the name the driver presents to hosts, NUL-terminated, into a 32-character buffer. */
    method GetDriverName(name: array<char>)
      requires name.Length >= 32
      modifies name
      ensures name[..21] == "XONAR SOUND CARD(64)" + ['\0']
      ensures name[21..] == old(name[21..])
    {
      var text := "XONAR SOUND CARD(64)";
      CopyChars(name, text);
      name[|text|] := '\0';
    }

    /** getDriverVersion */
    method GetDriverVersion() returns (version: int)
      ensures version == 0
    {
      version := 0;
    }

    /**
     * getErrorMessage: the last error, cut to 123 characters, then a NUL,
     * into the host's buffer (ASIO gives it 124 characters).
     */
    method GetErrorMessage(text: array<char>)
      requires text.Length > MaxErrorMessageSize
      modifies text
      ensures var n := Min(|lastError|, MaxErrorMessageSize);
        && text[..n] == lastError[..n] && text[n] == '\0'
        && text[n + 1..] == old(text[n + 1..])
      ensures lastError == old(lastError) && flexASIO == old(flexASIO)
    {
      var n := Min(|lastError|, MaxErrorMessageSize);
      var error := lastError[..n];
      CopyChars(text, error);
      text[n] := '\0';
    }

    /**
     * canSampleRate: once initialised, ASE_OK when the inner driver supports
     * the rate and ASE_NoClock when it does not; a failure of the guard or of
     * the inner driver is returned as is.
     */
    method CanSampleRate(rate: int, supported: bool, outcome: Option<Thrown>) returns (result: AsioError)
      modifies this
      ensures old(flexASIO).None? ==> result == ASE_InvalidMode
      ensures old(flexASIO).Some? && outcome.None? ==> result == if supported then ASE_OK else ASE_NoClock
      ensures old(flexASIO).Some? && outcome.Some? && EnterResult(outcome) != ASE_OK ==> result == EnterResult(outcome)
      ensures old(flexASIO).None? ==> lastError == "entered " + "canSampleRate()" + " but uninitialized state"
      ensures old(flexASIO).Some? ==> lastError == if outcome.None? then old(lastError) else ErrorText(outcome.value)
      ensures flexASIO == old(flexASIO)
    {
      var error, invoked := EnterInitialized("canSampleRate()", outcome);
      if error != ASE_OK {
        return error;
      }
      result := if supported then ASE_OK else ASE_NoClock;
    }

    /**
     * getClockSources: both addresses must be given and the host must have
     * room for at least one source; there is then exactly one, the internal
     * clock, which is the current one.
     */
    method GetClockSources(clocks: Option<ClockSource>, numSources: Option<LongCell>) returns (result: AsioError)
      modifies this
      modifies if clocks.Some? then {clocks.value} else {}
      modifies if numSources.Some? then {numSources.value} else {}
      ensures var valid := clocks.Some? && numSources.Some? && old(numSources.value.value) >= 1;
        && (valid <==> result == ASE_OK)
        && (!valid ==>
              && result == ASE_InvalidParameter
              && lastError == "invalid parameters to getClockSources()"
              && (clocks.Some? ==> unchanged(clocks.value))
              && (numSources.Some? ==> unchanged(numSources.value)))
        && (valid ==>
              && lastError == old(lastError)
              && clocks.value.index == 0
              && clocks.value.associatedChannel == -1 && clocks.value.associatedGroup == -1
              && clocks.value.isCurrentSource == ASIOTrue
              && clocks.value.name == "Internal"
              && numSources.value.value == 1)
      ensures flexASIO == old(flexASIO)
    {
      if clocks.None? || numSources.None? || numSources.value.value < 1 {
        result := Enter(Some(ASIOException(ASE_InvalidParameter, "invalid parameters to getClockSources()")));
        return;
      }
      var clock := clocks.value;
      clock.index := 0;
      clock.associatedChannel := -1;
      clock.associatedGroup := -1;
      clock.isCurrentSource := ASIOTrue;
      clock.name := "Internal";
      numSources.value.value := 1;
      result := Enter(None);
    }

    /** setClockSource: only the one source, reference 0, can be selected. */
    method SetClockSource(reference: int) returns (result: AsioError)
      modifies this
      ensures result == ASE_OK <==> reference == 0
      ensures reference != 0 ==> result == ASE_InvalidParameter && lastError == "setClockSource() parameter out of bounds"
      ensures reference == 0 ==> lastError == old(lastError)
      ensures flexASIO == old(flexASIO)
    {
      var thrown := if reference != 0 then Some(ASIOException(ASE_InvalidParameter, "setClockSource() parameter out of bounds")) else None;
      result := Enter(thrown);
    }

    /**
     * controlPanel, as corrected: `actions` is what it opens, and `outcome`
     * is what escapes from opening it.
     */
    method ControlPanel(outcome: Option<Thrown>) returns (result: AsioError, actions: seq<PanelAction>)
      modifies this
      ensures actions == ControlPanelActions(old(flexASIO).Some?)
      ensures result == EnterResult(outcome)
      ensures lastError == if outcome.None? then old(lastError) else ErrorText(outcome.value)
      ensures flexASIO == old(flexASIO)
    {
      if flexASIO.None? {
        actions := [OpenStandalonePanel];
      } else {
        actions := [InnerControlPanel];
      }
      result := Enter(outcome);
    }

    /** future: no selector is supported. */
    method Future(selector: int) returns (result: AsioError)
      modifies this
      ensures result == ASE_InvalidParameter && lastError == "future() is not supported"
      ensures flexASIO == old(flexASIO)
    {
      result := Enter(Some(ASIOException(ASE_InvalidParameter, "future() is not supported")));
    }
  }

  /** std::copy of a string into the front of a character buffer. */
  method CopyChars(buffer: array<char>, text: string)
    requires |text| <= buffer.Length
    modifies buffer
    ensures buffer[..|text|] == text
    ensures buffer[|text|..] == old(buffer[|text|..])
  {
    var i := 0;
    while i < |text|
      invariant i <= |text|
      invariant buffer[..i] == text[..i]
      invariant buffer[|text|..] == old(buffer[|text|..])
    {
      buffer[i] := text[i];
      i := i + 1;
    }
  }
}
