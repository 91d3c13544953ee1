/** The Home Assistant data coordinator: the command-name dispatch, the data
    dictionary built from a MowerInfo snapshot, and the connection retry loop. */
module Coordinator {
  import opened Wrappers
  import opened Bytes
  import opened Text
  import opened Decoders
  import opened Store
  import opened Mower

  // ---------------------------------------------------------------------
  // Command names

  /** The control commands the coordinator accepts by name. */
  datatype ControlCommand = Start | Spiral | Edge | Stop | Dock

  function CommandName(c: ControlCommand): string
  {
    match c
    case Start => "start"
    case Spiral => "spiral"
    case Edge => "edge"
    case Stop => "stop"
    case Dock => "dock"
  }

  /** The if/elif chain of `send_command`: a known name selects its command,
      any other name is rejected. */
  function ParseCommandName(name: string): (r: Option<ControlCommand>)
    ensures r.Some? ==> CommandName(r.value) == name
  {
    if name == "start" then Some(Start)
    else if name == "spiral" then Some(Spiral)
    else if name == "edge" then Some(Edge)
    else if name == "stop" then Some(Stop)
    else if name == "dock" then Some(Dock)
    else None
  }

  /** Every command is found again from its name, and a name is rejected
      exactly when it is no command's name. */
  lemma CommandNameRoundTrip(c: ControlCommand, name: string)
    ensures ParseCommandName(CommandName(c)) == Some(c)
    ensures ParseCommandName(name).None? <==> forall d: ControlCommand :: CommandName(d) != name
  {
    if ParseCommandName(name).None? {
      forall d: ControlCommand
        ensures CommandName(d) != name
      {
        assert ParseCommandName(CommandName(d)) == Some(d);
      }
    }
  }

  /** The mower method each name calls, as its command code. */
  function ControlCode(c: ControlCommand): byte
  {
    match c
    case Start => START
    case Spiral => SPIRAL_CUT
    case Edge => EDGE_CUT_ONCE
    case Stop => STOP
    case Dock => CHARGE
  }

  /** Distinct commands put distinct frames on the wire. */
  lemma ControlFramesDistinct(c: ControlCommand, d: ControlCommand)
    requires c != d
    ensures CommandFrame(ControlCode(c)) != CommandFrame(ControlCode(d))
  {
    assert CommandFrame(ControlCode(c))[4] == ControlCode(c);
    assert CommandFrame(ControlCode(d))[4] == ControlCode(d);
  }

  // ---------------------------------------------------------------------
  // The data dictionary

  /** The dictionary `_async_update_data` returns, one field per key. */
  datatype InfoDict = InfoDict(
    serialNumber: string,
    firmwareVersion: string,
    batteryLevel: int,
    isCharging: bool,
    signalType: string,
    trimmingEnabled: bool,
    hasSchedule: bool,
    status: string,
    faultRecords: seq<FaultRecord>)

  /** `status.value.replace('_', ' ').title()`. */
  function StatusLabel(s: MowerState): string
  {
    Title(ReplaceChar(StateValue(s), '_', ' '))
  }

  /** Every state value is a non-empty lowercase word. */
  lemma StateValueLowercase(s: MowerState)
    ensures |StateValue(s)| > 0
    ensures forall i :: 0 <= i < |StateValue(s)| ==> IsLower(StateValue(s)[i])
  {
  }

  /** A label is its state's value with the first letter capitalised. */
  lemma StatusLabelShape(s: MowerState)
    ensures StatusLabel(s) == [ToUpperChar(StateValue(s)[0])] + StateValue(s)[1..]
  {
    var v := StateValue(s);
    StateValueLowercase(s);
    assert ReplaceChar(v, '_', ' ') == v;
    TitleOfLowerWord(v);
  }

  /** Lowercasing a label gives back the state's value. */
  lemma LowerOfStatusLabel(s: MowerState)
    ensures Lower(StatusLabel(s)) == StateValue(s)
  {
    StatusLabelShape(s);
    StateValueLowercase(s);
  }

  /** The labels the dictionary carries, state by state. */
  function LabelText(s: MowerState): string
  {
    match s
    case Unknown => "Unknown"
    case Idle => "Idle"
    case Mowing => "Mowing"
    case Docked => "Docked"
    case Returning => "Returning"
    case Stopped => "Stopped"
    case Error => "Error"
  }

  /** w is v with its first letter capitalised. */
  lemma CapitalisedFrom(v: string, w: string)
    requires |v| > 0 && |w| == |v| && w[0] == ToUpperChar(v[0])
    requires forall i :: 1 <= i < |v| ==> w[i] == v[i]
    ensures w == [ToUpperChar(v[0])] + v[1..]
  {
  }

  /** The table is the state values with a capital first letter. */
  lemma LabelTextShape(s: MowerState)
    ensures LabelText(s) == [ToUpperChar(StateValue(s)[0])] + StateValue(s)[1..]
  {
    CapitalisedFrom(StateValue(s), LabelText(s));
  }

  /** Each state's label is the one in the table. */
  lemma StatusLabelOf(s: MowerState)
    ensures StatusLabel(s) == LabelText(s)
  {
    StatusLabelShape(s);
    LabelTextShape(s);
  }

  /** The state a label names, if any. */
  function StateOfLabel(name: string): Option<MowerState>
  {
    if name == "Unknown" then Some(Unknown)
    else if name == "Idle" then Some(Idle)
    else if name == "Mowing" then Some(Mowing)
    else if name == "Docked" then Some(Docked)
    else if name == "Returning" then Some(Returning)
    else if name == "Stopped" then Some(Stopped)
    else if name == "Error" then Some(Error)
    else None
  }

  /** Each table entry names its own state. */
  lemma LabelTextRoundTrip(s: MowerState)
    ensures StateOfLabel(LabelText(s)) == Some(s)
  {
  }

  /** The label determines the state. */
  lemma StatusLabelRoundTrip(s: MowerState)
    ensures StateOfLabel(StatusLabel(s)) == Some(s)
  {
    StatusLabelOf(s);
    LabelTextRoundTrip(s);
  }

  /** The signal name determines the signal. */
  function SignalOfName(name: string): Option<SignalType>
  {
    if name == "S1" then Some(S1) else if name == "S2" then Some(S2) else if name == "S3" then Some(S3) else None
  }

  lemma SignalNameRoundTrip(s: SignalType)
    ensures SignalOfName(SignalName(s)) == Some(s)
  {
  }

  /** The dictionary for a MowerInfo. A MowerState member is always truthy,
      so the "Unknown" fallback of the source is never taken. */
  function ToDict(info: MowerInfo): InfoDict
  {
    InfoDict(
      info.serialNumber,
      info.firmwareVersion,
      info.batteryLevel,
      info.isCharging,
      SignalName(info.signalType),
      info.trimmingEnabled,
      info.hasSchedule,
      StatusLabel(info.status),
      info.faultRecords)
  }

  /** The dictionary loses only the date and the time: two snapshots with the
      same dictionary agree on every other field. */
  lemma ToDictLosesOnlyDateTime(a: MowerInfo, b: MowerInfo)
    requires ToDict(a) == ToDict(b)
    ensures a.(currentDate := None, currentTime := None) == b.(currentDate := None, currentTime := None)
  {
    StatusLabelRoundTrip(a.status);
    StatusLabelRoundTrip(b.status);
    SignalNameRoundTrip(a.signalType);
    SignalNameRoundTrip(b.signalType);
  }

  // ---------------------------------------------------------------------
  // The coordinator

  class CloudHawkCoordinator {
    const mower: CloudHawkMower
    const address: string
    var lastSuccessfulData: Option<InfoDict>   // self._last_successful_data

    constructor (mower: CloudHawkMower, address: string)
      ensures this.mower == mower && this.address == address
      ensures lastSuccessfulData == None
    {
      this.mower := mower;
      this.address := address;
      lastSuccessfulData := None;
    }

    /** `_async_update_data`: snapshot the mower's store, turn it into the
        dictionary and remember it. */
    method UpdateData() returns (data: InfoDict)
      modifies this`lastSuccessfulData, mower`mowerInfo
      ensures data == ToDict(Snapshot(mower.store))
      ensures mower.mowerInfo == Snapshot(mower.store)
      ensures lastSuccessfulData == Some(data)
    {
      var info := mower.GetMowerInfo();
      data := InfoDict(
        info.serialNumber,
        info.firmwareVersion,
        info.batteryLevel,
        info.isCharging,
        SignalName(info.signalType),
        info.trimmingEnabled,
        info.hasSchedule,
        StatusLabel(info.status),
        info.faultRecords);
      lastSuccessfulData := Some(data);
    }

    /** `send_command(command_name)`: an unknown name writes nothing and
        fails; a known one calls the matching mower method and returns its
        result. */
    method SendCommand(name: string, writeOk: bool) returns (ok: bool)
      modifies mower`written
      ensures ParseCommandName(name).None? ==> !ok && mower.written == old(mower.written)
      ensures ParseCommandName(name).Some? ==>
                && ok == (mower.CanWrite() && writeOk)
                && mower.written == if ok then old(mower.written) + [CommandFrame(ControlCode(ParseCommandName(name).value))]
                                    else old(mower.written)
    {
      if name == "start" {
        ok := mower.StartMowing(writeOk);
      } else if name == "spiral" {
        ok := mower.StartSpiralCutting(writeOk);
      } else if name == "edge" {
        ok := mower.StartEdgeCutting(writeOk);
      } else if name == "stop" {
        ok := mower.StopMowing(writeOk);
      } else if name == "dock" {
        ok := mower.ReturnToDock(writeOk);
      } else {
        ok := false;
      }
    }

    /** `_establish_connection`: call `connect(address)` until it succeeds.
        The source retries for ever; here `attempts` lists what the
        transport does on each try, and `results` records each try's
        outcome: every try before the last failed, and the loop stops early
        only on a success, which leaves the mower connected and listening. */
    method EstablishConnection(attempts: seq<ConnectEnv>) returns (results: seq<bool>)
      requires mower.Valid()
      requires forall k :: 0 <= k < |attempts| ==> |attempts[k].writeOutcomes| == |BootstrapCodes|
      modifies mower`hasClient, mower`linkUp, mower`writeChar, mower`notifyChar, mower`listenerActive,
               mower`maintenanceActive, mower`maintenanceTask, mower`written
      ensures mower.Valid()
      ensures |results| <= |attempts|
      ensures forall k :: 0 <= k < |results| - 1 ==> !results[k]
      ensures |results| < |attempts| ==> |results| > 0 && results[|results| - 1]
      ensures |results| > 0 && results[|results| - 1] ==>
                mower.IsConnected() && mower.writeChar && mower.notifyChar
                && mower.listenerActive && mower.maintenanceActive
      ensures forall k :: 0 <= k < |results| ==>
                (results[k] ==> ConnectMaySucceed(Some(address), attempts[k], mower.deviceName))
      ensures forall k :: 0 <= k < |results| ==>
                (ConnectMustSucceed(Some(address), attempts[k], mower.deviceName) ==> results[k])
      ensures forall k :: 0 <= k < |attempts| && ConnectMustSucceed(Some(address), attempts[k], mower.deviceName) ==>
                |results| <= k + 1
      ensures (forall k :: 0 <= k < |results| ==> !results[k]) ==> mower.written == old(mower.written)
      ensures |results| > 0 && results[|results| - 1] ==>
                mower.written == old(mower.written) + Accepted(BootstrapFrames(), attempts[|results| - 1].writeOutcomes)
    {
      results := [];
      var k := 0;
      while k < |attempts|
        invariant 0 <= k <= |attempts| && |results| == k
        invariant mower.Valid()
        invariant forall j :: 0 <= j < k ==> !results[j]
        invariant forall j :: 0 <= j < k ==> !ConnectMustSucceed(Some(address), attempts[j], mower.deviceName)
        invariant mower.written == old(mower.written)
      {
        var ok := mower.Connect(Some(address), attempts[k]);
        results := results + [ok];
        if ok {
          return;
        }
        k := k + 1;
      }
    }
  }
}
