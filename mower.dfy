/** The mower controller `CloudHawkMower`: connection bookkeeping over an
    abstract BLE transport, the constant notification listener that fills the
    response store, the command write path, the control commands and the
    bootstrap sequence. Every transport call is replaced by the outcome it
    produced, passed in as a parameter. */
module Mower {
  import opened Wrappers
  import opened Bytes
  import opened Frame
  import opened Text
  import opened Decoders
  import opened Store

  // ---------------------------------------------------------------------
  // Command codes (the one-byte codes of `CloudHawkMower.Commands` in use)

  const START: byte := 0x05
  const START_ONCE: byte := 0x7D
  const STOP: byte := 0x29
  const CHARGE: byte := 0x06
  const SPIRAL_CUT: byte := 0x79
  const EDGE_CUT_ONCE: byte := 0x7c
  const GET_FIRMWARE: byte := 0x01
  const GET_SERIAL: byte := 0x02
  const GET_SIGNAL: byte := 0x0b
  const GET_BATTERY: byte := 0x83
  const GET_TRIMMING: byte := 0x07
  const GET_CUT_SCHEDULE: byte := 0x70
  const GET_FAULT_RECORD: byte := 0x15

  /** `generate_command(code)` for a one-byte code and no content: six bytes,
      55 AA 02 80 code CHK. */
  function CommandFrame(code: byte): (f: seq<byte>)
    ensures GenerateCommand([code], []) == Success(f)
    ensures f == [0x55, 0xAA, 0x02, 0x80, code, (0x55 + 0xAA + 0x02 + 0x80 + code) % 256]
  {
    GeneratedLayout([code], []);
    var f := GenerateCommand([code], []).value;
    assert f[3..5] == [0x80, code];
    assert f[3] == 0x80 && f[4] == code;
    var p1, p2, p3, p4, p5 := f[..1], f[..2], f[..3], f[..4], f[..5];
    assert p1[..0] == [] && p2[..1] == p1 && p3[..2] == p2 && p4[..3] == p3 && p5[..4] == p4;
    assert Sum(p1) == 0x55;
    assert Sum(p2) == 0x55 + 0xAA;
    assert Sum(p3) == 0x55 + 0xAA + 0x02;
    assert Sum(p4) == 0x55 + 0xAA + 0x02 + 0x80;
    assert Sum(p5) == 0x55 + 0xAA + 0x02 + 0x80 + code;
    f
  }

  /** The bootstrap list of `populate_initial_data`, in order: firmware,
      serial, battery, signal, trimming, schedule, fault records. */
  const BootstrapCodes: seq<byte> :=
    [GET_FIRMWARE, GET_SERIAL, GET_BATTERY, GET_SIGNAL, GET_TRIMMING, GET_CUT_SCHEDULE, GET_FAULT_RECORD]

  /** The frames of the bootstrap list. */
  function BootstrapFrames(): (fs: seq<seq<byte>>)
  {
    seq(|BootstrapCodes|, i requires 0 <= i < |BootstrapCodes| => CommandFrame(BootstrapCodes[i]))
  }

  /** r is s with some elements left out and the rest kept in order. */
  predicate SubsequenceOf(r: seq<seq<byte>>, s: seq<seq<byte>>)
    decreases |s|
  {
    if r == [] then true
    else if s == [] then false
    else (r[0] == s[0] && SubsequenceOf(r[1..], s[1..])) || SubsequenceOf(r, s[1..])
  }

  /** The frames whose write succeeded, in order. */
  function Accepted(frames: seq<seq<byte>>, results: seq<bool>): (r: seq<seq<byte>>)
    requires |frames| == |results|
    ensures |r| <= |frames|
    ensures SubsequenceOf(r, frames)
  {
    if frames == [] then []
    else
      var rest := Accepted(frames[1..], results[1..]);
      if results[0] then
        assert ([frames[0]] + rest)[1..] == rest;
        [frames[0]] + rest
      else
        rest
  }

  lemma {:induction false} AcceptedAppend(frames: seq<seq<byte>>, results: seq<bool>, f: seq<byte>, ok: bool)
    requires |frames| == |results|
    ensures Accepted(frames + [f], results + [ok]) == Accepted(frames, results) + (if ok then [f] else [])
  {
    if frames != [] {
      assert (frames + [f])[1..] == frames[1..] + [f];
      assert (results + [ok])[1..] == results[1..] + [ok];
      AcceptedAppend(frames[1..], results[1..], f, ok);
    }
  }

  lemma {:induction false} AcceptedAll(frames: seq<seq<byte>>, results: seq<bool>)
    requires |frames| == |results| && forall i :: 0 <= i < |results| ==> results[i]
    ensures Accepted(frames, results) == frames
  {
    if frames != [] {
      AcceptedAll(frames[1..], results[1..]);
    }
  }

  lemma {:induction false} AcceptedNone(frames: seq<seq<byte>>, results: seq<bool>)
    requires |frames| == |results| && forall i :: 0 <= i < |results| ==> !results[i]
    ensures Accepted(frames, results) == []
  {
    if frames != [] {
      AcceptedNone(frames[1..], results[1..]);
    }
  }

  // ---------------------------------------------------------------------
  // What the transport reports

  /** A device seen by the scan: its advertised name (possibly absent) and address. */
  datatype Device = Device(name: Option<string>, address: string)

  /** `device.name and self.device_name in device.name`. */
  predicate NameMatches(d: Device, deviceName: string)
  {
    d.name.Some? && |d.name.value| > 0 && Contains(d.name.value, deviceName)
  }

  /** Index of the first matching device, |devices| if none matches. */
  function FirstMatch(devices: seq<Device>, deviceName: string): (i: nat)
    ensures i <= |devices|
  {
    if devices == [] then 0
    else if NameMatches(devices[0], deviceName) then 0
    else 1 + FirstMatch(devices[1..], deviceName)
  }

  /** FirstMatch is the first match: nothing before it matches, and it
      matches unless it is |devices|. */
  lemma {:induction false} FirstMatchSpec(devices: seq<Device>, deviceName: string)
    ensures var i := FirstMatch(devices, deviceName);
            && (forall j :: 0 <= j < i ==> !NameMatches(devices[j], deviceName))
            && (i < |devices| ==> NameMatches(devices[i], deviceName))
  {
    if devices != [] && !NameMatches(devices[0], deviceName) {
      FirstMatchSpec(devices[1..], deviceName);
      var i := FirstMatch(devices, deviceName);
      forall j | 0 <= j < i
        ensures !NameMatches(devices[j], deviceName)
      {
        if j > 0 {
          assert devices[j] == devices[1..][j - 1];
        }
      }
    }
  }

  /** A service as `services.get_service(uuid)` finds it: which of the two
      characteristics `get_characteristic` finds in it. */
  datatype ServiceView = ServiceView(hasWrite: bool, hasNotify: bool)

  /** The main service (ff12) and the SUMIC alternative (abf0), each possibly absent. */
  datatype Services = Services(main: Option<ServiceView>, sumic: Option<ServiceView>)

  /** Outcomes of the transport calls one `connect` makes. */
  datatype ConnectEnv = ConnectEnv(
    scanOk: bool,              // BleakScanner.discover returned
    devices: seq<Device>,      // what it returned
    handshakeOk: bool,         // BleakClient.connect returned
    services: Services,        // client.services
    unsubscribeOk: bool,       // stop_notify, should connect have to disconnect
    notifyOk: bool,            // start_notify returned
    writeOutcomes: seq<bool>)  // write_gatt_char returned, per bootstrap frame

  /** The write and notify characteristics after the service lookup: the main
      service wins, then SUMIC; with neither, the previous values stay. */
  function CharacteristicsAfter(write: bool, notify: bool, s: Services): (bool, bool)
  {
    if s.main.Some? then (s.main.value.hasWrite, s.main.value.hasNotify)
    else if s.sumic.Some? then (s.sumic.value.hasWrite, s.sumic.value.hasNotify)
    else (write, notify)
  }

  /** `connect` gets an address: a non-empty one was given, or the scan
      returned and its first matching device has a non-empty address. */
  predicate AddressFound(address: Option<string>, env: ConnectEnv, deviceName: string)
  {
    var i := FirstMatch(env.devices, deviceName);
    (address.Some? && address.value != "")
    || (env.scanOk && i < |env.devices| && env.devices[i].address != "")
  }

  /** The service lookup finds the main or the SUMIC service, and the one it
      picks offers both the write and the notify characteristic. */
  predicate ServiceComplete(s: Services)
  {
    CharacteristicsAfter(false, false, s) == (true, true)
  }

  /** What a successful `connect` needs of the transport, whatever the state
      before: an address, a handshake, and, when a known service is present,
      both characteristics on it. */
  predicate ConnectMaySucceed(address: Option<string>, env: ConnectEnv, deviceName: string)
  {
    && AddressFound(address, env, deviceName)
    && env.handshakeOk
    && (env.services.main.Some? || env.services.sumic.Some? ==> ServiceComplete(env.services))
  }

  /** What makes `connect` succeed whatever the state before: an address, a
      handshake, a complete service and a working subscription. */
  predicate ConnectMustSucceed(address: Option<string>, env: ConnectEnv, deviceName: string)
  {
    AddressFound(address, env, deviceName) && env.handshakeOk && ServiceComplete(env.services) && env.notifyOk
  }

  // ---------------------------------------------------------------------
  // The controller

  class CloudHawkMower {
    const deviceName: string
    var hasClient: bool         // self.client is not None
    var linkUp: bool            // self.client.is_connected
    var writeChar: bool         // self.write_char is set
    var notifyChar: bool        // self.notify_char is set
    var store: ResponseStore    // self.response_store
    var listenerActive: bool    // self._listener_active
    var maintenanceActive: bool // self._maintenance_active
    var maintenanceTask: bool   // self._connection_maintenance_task is set
    var hasCallback: bool       // self.data_update_callback is set
    var callbackCount: nat      // calls made to the data update callback
    var written: seq<seq<byte>> // frames the transport accepted, in order
    var mowerInfo: MowerInfo    // self.mower_info

    ghost predicate Valid()
      reads this
    {
      && WellFormed(store)
      && (maintenanceTask <==> maintenanceActive)
      && (linkUp ==> hasClient)
    }

    /** `is_connected()`. */
    predicate IsConnected()
      reads this
    {
      hasClient && linkUp
    }

    /** The guard of `send_command`. */
    predicate CanWrite()
      reads this
    {
      IsConnected() && writeChar
    }

    constructor (deviceName: string)
      ensures Valid()
      ensures this.deviceName == deviceName
      ensures !hasClient && !linkUp && !writeChar && !notifyChar
      ensures store == map[] && !listenerActive && !maintenanceActive && !maintenanceTask
      ensures !hasCallback && callbackCount == 0 && written == [] && mowerInfo == DefaultInfo
    {
      this.deviceName := deviceName;
      hasClient, linkUp, writeChar, notifyChar := false, false, false, false;
      store := map[];
      listenerActive, maintenanceActive, maintenanceTask := false, false, false;
      hasCallback, callbackCount := false, 0;
      written := [];
      mowerInfo := DefaultInfo;
    }

    /** `set_data_update_callback`. */
    method SetDataUpdateCallback()
      modifies this`hasCallback
      ensures hasCallback
    {
      hasCallback := true;
    }

    /** The transport reports the link lost: `client.is_connected` turns false. */
    method LinkLost()
      requires Valid()
      modifies this`linkUp
      ensures Valid() && !linkUp && !IsConnected()
    {
      linkUp := false;
    }

    /** `notification_handler`: parse one notification, store the accepted
        ones by key, then call the update callback once. The callback's own
        exceptions are swallowed, so the call always completes. */
    method HandleNotification(data: seq<byte>, now: Timestamp)
      requires Valid()
      modifies this`store, this`callbackCount
      ensures Valid()
      ensures store == Receive(old(store), data, now)
      ensures callbackCount == old(callbackCount) + (if ParseNotification(data).Some? && hasCallback then 1 else 0)
    {
      if |data| >= 3 && data[0] == 0x55 && data[1] == 0xAA {
        var length := data[2];
        var payload := if |data| > 3 then (if 3 + length <= |data| then data[3..3 + length] else data[3..]) else [];
        assert payload == Window(data);
        if |payload| >= 2 {
          var dataPart := if |payload| > 2 then payload[2..] else [];
          assert dataPart == payload[2..];
          assert ParseNotification(data) == Some(Notification((payload[0], payload[1]), payload, dataPart));
          store := store[(payload[0], payload[1]) := Entry(now, payload, dataPart, data, Hex(data))];
          if hasCallback {
            callbackCount := callbackCount + 1;
          }
        } else {
          assert ParseNotification(data).None?;
        }
      } else {
        assert ParseNotification(data).None?;
      }
      assert store == Receive(old(store), data, now);
      ReceivePreservesWellFormed(old(store), data, now);
    }

    /** `send_command`: nothing is written unless connected with a write
        characteristic; then the frame is written and the result is whether
        the transport accepted it. */
    method SendCommand(command: seq<byte>, writeOk: bool) returns (ok: bool)
      modifies this`written
      ensures ok == (CanWrite() && writeOk)
      ensures written == if ok then old(written) + [command] else old(written)
    {
      if !IsConnected() || !writeChar {
        return false;
      }
      if !writeOk {
        return false;
      }
      written := written + [command];
      return true;
    }

    /** `start_mowing`: command 05. */
    method StartMowing(writeOk: bool) returns (ok: bool)
      modifies this`written
      ensures ok == (CanWrite() && writeOk)
      ensures written == if ok then old(written) + [CommandFrame(START)] else old(written)
    {
      ok := SendCommand(CommandFrame(START), writeOk);
    }

    /** `start_mowing_once`: command 7D. */
    method StartMowingOnce(writeOk: bool) returns (ok: bool)
      modifies this`written
      ensures ok == (CanWrite() && writeOk)
      ensures written == if ok then old(written) + [CommandFrame(START_ONCE)] else old(written)
    {
      ok := SendCommand(CommandFrame(START_ONCE), writeOk);
    }

    /** `stop_mowing`: command 29. */
    method StopMowing(writeOk: bool) returns (ok: bool)
      modifies this`written
      ensures ok == (CanWrite() && writeOk)
      ensures written == if ok then old(written) + [CommandFrame(STOP)] else old(written)
    {
      ok := SendCommand(CommandFrame(STOP), writeOk);
    }

    /** `return_to_dock`: command 06. */
    method ReturnToDock(writeOk: bool) returns (ok: bool)
      modifies this`written
      ensures ok == (CanWrite() && writeOk)
      ensures written == if ok then old(written) + [CommandFrame(CHARGE)] else old(written)
    {
      ok := SendCommand(CommandFrame(CHARGE), writeOk);
    }

    /** `start_spiral_cutting`: command 79. */
    method StartSpiralCutting(writeOk: bool) returns (ok: bool)
      modifies this`written
      ensures ok == (CanWrite() && writeOk)
      ensures written == if ok then old(written) + [CommandFrame(SPIRAL_CUT)] else old(written)
    {
      ok := SendCommand(CommandFrame(SPIRAL_CUT), writeOk);
    }

    /** `start_edge_cutting`: command 7c. */
    method StartEdgeCutting(writeOk: bool) returns (ok: bool)
      modifies this`written
      ensures ok == (CanWrite() && writeOk)
      ensures written == if ok then old(written) + [CommandFrame(EDGE_CUT_ONCE)] else old(written)
    {
      ok := SendCommand(CommandFrame(EDGE_CUT_ONCE), writeOk);
    }

    /** The loop of `populate_initial_data`: one `send_command` per frame, in
        order; a failed send does not stop the loop. `outcomes[i]` is what the
        transport does with the i-th write. */
    method SendInOrder(frames: seq<seq<byte>>, outcomes: seq<bool>) returns (results: seq<bool>)
      requires |outcomes| == |frames|
      modifies this`written
      ensures |results| == |frames|
      ensures forall i :: 0 <= i < |results| ==> results[i] == (CanWrite() && outcomes[i])
      ensures written == old(written) + Accepted(frames, results)
    {
      results := [];
      var i := 0;
      while i < |frames|
        invariant 0 <= i <= |frames|
        invariant |results| == i
        invariant forall j :: 0 <= j < i ==> results[j] == (CanWrite() && outcomes[j])
        invariant written == old(written) + Accepted(frames[..i], results)
      {
        var ok := SendCommand(frames[i], outcomes[i]);
        assert frames[..i + 1] == frames[..i] + [frames[i]];
        AcceptedAppend(frames[..i], results, frames[i], ok);
        results := results + [ok];
        i := i + 1;
      }
      assert frames[..i] == frames;
    }

    /** `populate_initial_data`: the seven bootstrap requests, each built by
        `generate_command`, sent in order whatever the earlier ones did. */
    method PopulateInitialData(outcomes: seq<bool>) returns (results: seq<bool>)
      requires |outcomes| == |BootstrapCodes|
      modifies this`written
      ensures |results| == |BootstrapCodes|
      ensures forall i :: 0 <= i < |results| ==> results[i] == (CanWrite() && outcomes[i])
      ensures CanWrite() ==> results == outcomes
      ensures written == old(written) + Accepted(BootstrapFrames(), results)
    {
      results := SendInOrder(BootstrapFrames(), outcomes);
      if CanWrite() {
        assert forall j :: 0 <= j < |results| ==> results[j] == outcomes[j];
      }
    }

    /** `get_mower_info`: fill a default MowerInfo field by field from the
        store, keep it as `mower_info` and return it. */
    method GetMowerInfo() returns (info: MowerInfo)
      modifies this`mowerInfo
      ensures info == Snapshot(store) && mowerInfo == info
    {
      var serialNumber, firmwareVersion := "", "";
      var serial := Lookup(store, SerialKey);
      if HasData(serial) {
        serialNumber := AsciiText(serial.value.data);
      }
      assert serialNumber == TextField(store, SerialKey);
      var firmware := Lookup(store, FirmwareKey);
      if HasData(firmware) {
        firmwareVersion := AsciiText(firmware.value.data);
      }
      assert firmwareVersion == TextField(store, FirmwareKey);
      var batteryLevel, isCharging := 0, false;
      var battery := Lookup(store, BatteryKey);
      if HasPayload(battery) {
        var levelCharging := ParseBattery(battery.value.payload);
        batteryLevel, isCharging := levelCharging.0, levelCharging.1;
      }
      assert (batteryLevel, isCharging) == BatteryField(store);
      var signalType := S1;
      var signal := Lookup(store, SignalKey);
      if HasPayload(signal) {
        signalType := ParseSignalType(signal.value.payload);
      }
      assert signalType == SignalField(store);
      var trimmingEnabled := false;
      var trimming := Lookup(store, TrimmingKey);
      if HasPayload(trimming) {
        trimmingEnabled := ParseTrimmingEnabled(trimming.value.payload);
      }
      assert trimmingEnabled == TrimmingField(store);
      var hasSchedule := false;
      var schedule := Lookup(store, ScheduleKey);
      if HasPayload(schedule) {
        hasSchedule := ParseScheduleData(schedule.value.payload);
      }
      assert hasSchedule == ScheduleField(store);
      var faultRecords := [];
      var faults := Lookup(store, FaultKey);
      if HasPayload(faults) {
        faultRecords := ParseFaultRecords(faults.value.payload);
      }
      assert faultRecords == FaultField(store);
      var status := Unknown;
      var state := Lookup(store, StatusKey);
      if HasPayload(state) {
        status := ParseStatus(state.value.payload);
      }
      assert status == StatusField(store);
      info := MowerInfo(serialNumber, firmwareVersion, batteryLevel, isCharging, signalType,
                        trimmingEnabled, None, None, hasSchedule, status, faultRecords);
      assert info == Snapshot(store);
      mowerInfo := info;
    }

    /** `_start_connection_maintenance`: start the task unless it runs. */
    method StartConnectionMaintenance()
      requires Valid()
      modifies this`maintenanceActive, this`maintenanceTask
      ensures Valid() && maintenanceActive && maintenanceTask
    {
      if maintenanceActive {
        return;
      }
      maintenanceActive := true;
      maintenanceTask := true;
    }

    /** `_stop_connection_maintenance`: clear the flag and cancel the task. */
    method StopConnectionMaintenance()
      requires Valid()
      modifies this`maintenanceActive, this`maintenanceTask
      ensures Valid() && !maintenanceActive && !maintenanceTask
    {
      maintenanceActive := false;
      maintenanceTask := false;
    }

    /** `start_constant_listener`: does nothing when already active or not
        connected; otherwise sets the flag first and then subscribes, so a
        failed subscription (`raised`) leaves the flag set. */
    method StartConstantListener(subscribeOk: bool) returns (raised: bool)
      requires Valid()
      modifies this`listenerActive
      ensures Valid()
      ensures old(listenerActive) || !IsConnected() ==> !raised && listenerActive == old(listenerActive)
      ensures !old(listenerActive) && IsConnected() ==> listenerActive && raised == !subscribeOk
    {
      if listenerActive || !IsConnected() {
        return false;
      }
      listenerActive := true;
      raised := !subscribeOk;
    }

    /** `stop_constant_listener`: unsubscribes only when active with a client
        and a notify characteristic; the flag is cleared only when that
        succeeds. */
    method StopConstantListener(unsubscribeOk: bool) returns (raised: bool)
      requires Valid()
      modifies this`listenerActive
      ensures Valid()
      ensures var attempted := old(listenerActive) && hasClient && notifyChar;
              && raised == (attempted && !unsubscribeOk)
              && listenerActive == (old(listenerActive) && !(attempted && unsubscribeOk))
    {
      raised := false;
      if listenerActive && hasClient && notifyChar {
        if !unsubscribeOk {
          return true;
        }
        listenerActive := false;
      }
    }

    /** `disconnect`: when connected, stop the listener and drop the client
        (a failure in either is logged and the `finally` block resets the
        client and the listener flag regardless); then stop maintenance. The
        response store and the characteristics are kept. */
    method Disconnect(unsubscribeOk: bool)
      requires Valid()
      modifies this`hasClient, this`linkUp, this`listenerActive, this`maintenanceActive, this`maintenanceTask
      ensures Valid()
      ensures !maintenanceActive && !maintenanceTask
      ensures old(IsConnected()) ==> !hasClient && !linkUp && !listenerActive
      ensures !old(IsConnected()) ==> hasClient == old(hasClient) && linkUp == old(linkUp)
                                       && listenerActive == old(listenerActive)
      ensures !IsConnected()
    {
      if IsConnected() {
        var _ := StopConstantListener(unsubscribeOk);
        hasClient := false;
        linkUp := false;
        listenerActive := false;
      }
      StopConnectionMaintenance();
    }

    /** `scan_for_mower`: the address of the first scanned device whose name
        contains the device name. */
    method ScanForMower(devices: seq<Device>) returns (address: Option<string>)
      ensures var i := FirstMatch(devices, deviceName);
              address == if i < |devices| then Some(devices[i].address) else None
    {
      var i := 0;
      while i < |devices|
        invariant 0 <= i <= |devices|
        invariant FirstMatch(devices[i..], deviceName) + i == FirstMatch(devices, deviceName)
      {
        assert devices[i..][1..] == devices[i + 1..];
        if NameMatches(devices[i], deviceName) {
          return Some(devices[i].address);
        }
        i := i + 1;
      }
      return None;
    }

    /** The service lookup of `connect`: the main service, else the SUMIC one. */
    method SelectCharacteristics(services: Services)
      modifies this`writeChar, this`notifyChar
      ensures (writeChar, notifyChar) == CharacteristicsAfter(old(writeChar), old(notifyChar), services)
    {
      if services.main.Some? {
        writeChar := services.main.value.hasWrite;
        notifyChar := services.main.value.hasNotify;
      } else if services.sumic.Some? {
        writeChar := services.sumic.value.hasWrite;
        notifyChar := services.sumic.value.hasNotify;
      }
    }

    /** `connect(address)`. Without an address the scan supplies one; an
        exception from the scan is reported as a failed connect, which is how
        both callers treat it. */
    method Connect(address: Option<string>, env: ConnectEnv) returns (ok: bool)
      requires Valid()
      requires |env.writeOutcomes| == |BootstrapCodes|
      modifies this`hasClient, this`linkUp, this`writeChar, this`notifyChar, this`listenerActive,
               this`maintenanceActive, this`maintenanceTask, this`written
      ensures Valid()
      ensures !AddressFound(address, env, deviceName) ==>
                !ok && hasClient == old(hasClient) && linkUp == old(linkUp)
                && writeChar == old(writeChar) && notifyChar == old(notifyChar)
                && listenerActive == old(listenerActive) && maintenanceActive == old(maintenanceActive)
                && maintenanceTask == old(maintenanceTask) && written == old(written)
      ensures AddressFound(address, env, deviceName) ==> OpenedAsSpecified(env, ok)
      ensures ok ==> IsConnected() && writeChar && notifyChar && listenerActive && maintenanceActive
      ensures ok ==> ConnectMaySucceed(address, env, deviceName)
      ensures ConnectMustSucceed(address, env, deviceName) ==> ok
      ensures written == if ok then old(written) + Accepted(BootstrapFrames(), env.writeOutcomes) else old(written)
    {
      var addr := address;
      if addr.None? || addr.value == "" {
        if !env.scanOk {
          return false;
        }
        addr := ScanForMower(env.devices);
        if addr.None? || addr.value == "" {
          return false;
        }
      }
      ok := OpenClient(env);
    }

    /** What `connect` does once it has an address, given the state before. */
    twostate predicate OpenedAsSpecified(env: ConnectEnv, ok: bool)
      requires |env.writeOutcomes| == |BootstrapCodes|
      reads this
    {
      && (!env.handshakeOk ==>
            && !ok && hasClient && !linkUp && written == old(written)
            && writeChar == old(writeChar) && notifyChar == old(notifyChar)
            && listenerActive == old(listenerActive) && maintenanceActive == old(maintenanceActive)
            && maintenanceTask == old(maintenanceTask))
      && (env.handshakeOk ==>
            (writeChar, notifyChar) == CharacteristicsAfter(old(writeChar), old(notifyChar), env.services))
      && (env.handshakeOk && !(writeChar && notifyChar) ==>
            !ok && !hasClient && !linkUp && !listenerActive && !maintenanceActive && written == old(written))
      && (env.handshakeOk && writeChar && notifyChar ==>
            IsConnected() && maintenanceActive && listenerActive
            && ok == (old(listenerActive) || env.notifyOk)
            && written == if ok then old(written) + Accepted(BootstrapFrames(), env.writeOutcomes)
                          else old(written))
    }

    /** The part of `connect` after the address is known: a fresh client, the
        handshake, the service lookup, maintenance, the listener and the
        bootstrap requests. */
    method OpenClient(env: ConnectEnv) returns (ok: bool)
      requires Valid()
      requires |env.writeOutcomes| == |BootstrapCodes|
      modifies this`hasClient, this`linkUp, this`writeChar, this`notifyChar, this`listenerActive,
               this`maintenanceActive, this`maintenanceTask, this`written
      ensures Valid()
      ensures OpenedAsSpecified(env, ok)
    {
      hasClient := true;
      linkUp := false;
      if !env.handshakeOk {
        return false;
      }
      linkUp := true;
      SelectCharacteristics(env.services);
      if !writeChar || !notifyChar {
        Disconnect(env.unsubscribeOk);
        return false;
      }
      StartConnectionMaintenance();
      var raised := StartConstantListener(env.notifyOk);
      if raised {
        return false;
      }
      assert CanWrite();
      var _ := PopulateInitialData(env.writeOutcomes);
      return true;
    }
  }

  /** With the link up and a write characteristic, and every write accepted,
      the bootstrap puts all seven request frames on the wire, in order;
      without them it puts none. */
  lemma BootstrapWrites(results: seq<bool>)
    requires |results| == |BootstrapCodes|
    ensures (forall i :: 0 <= i < |results| ==> results[i]) ==> Accepted(BootstrapFrames(), results) == BootstrapFrames()
    ensures (forall i :: 0 <= i < |results| ==> !results[i]) ==> Accepted(BootstrapFrames(), results) == []
  {
    if forall i :: 0 <= i < |results| ==> results[i] {
      AcceptedAll(BootstrapFrames(), results);
    }
    if forall i :: 0 <= i < |results| ==> !results[i] {
      AcceptedNone(BootstrapFrames(), results);
    }
  }

  /** Each bootstrap frame, echoed back by the mower as its response, lands
      under the response key 80 code that `get_mower_info` reads: firmware
      8001, serial 8002, battery 8083, signal 800b, trimming 8007, schedule
      8070, fault records 8015. */
  lemma BootstrapKeys()
    ensures forall i :: 0 <= i < 7 ==>
              ParseNotification(BootstrapFrames()[i]).Some?
              && ParseNotification(BootstrapFrames()[i]).value.key == (0x80, BootstrapCodes[i])
    ensures [(0x80, BootstrapCodes[0]), (0x80, BootstrapCodes[1]), (0x80, BootstrapCodes[2]),
             (0x80, BootstrapCodes[3]), (0x80, BootstrapCodes[4]), (0x80, BootstrapCodes[5]),
             (0x80, BootstrapCodes[6])]
            == [FirmwareKey, SerialKey, BatteryKey, SignalKey, TrimmingKey, ScheduleKey, FaultKey]
  {
    forall i | 0 <= i < 7
      ensures ParseNotification(BootstrapFrames()[i]).Some?
      ensures ParseNotification(BootstrapFrames()[i]).value.key == (0x80, BootstrapCodes[i])
    {
      RoundTrip([BootstrapCodes[i]], []);
    }
  }
}
