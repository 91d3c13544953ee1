/** Two defects of the integration as written, each beside the behaviour
    the rest of the model gives the program as evidently intended.

    Unbound logger: cloudhawk_mower.py imports `logging` but never binds the
    name `logger`, so every `logger.<level>(...)` statement raises NameError.
    The other modules assume `logger = logging.getLogger(__name__)`, under
    which those statements do nothing.

    Missing setter: `async_setup_entry` calls
    `mower.set_connection_status_callback`, which CloudHawkMower does not
    define; the AttributeError ends the setup before the connection task is
    scheduled. */
module Defects {
  import opened Wrappers
  import opened Bytes
  import opened Decoders
  import opened Store

  /** How a call ends: it returns a value, or an exception escapes it. */
  datatype Outcome<T> = Returned(value: T) | Raised

  /** One `logger.<level>(...)` statement: nothing happens when a module
      logger is bound, NameError when the name is unbound. */
  function LogCall(loggerBound: bool): Outcome<()>
  {
    if loggerBound then Returned(()) else Raised
  }

  // ---------------------------------------------------------------------
  // connect

  /** `connect(address)` with its logging statements in place. `found` is
      what the scan's discovery yields; `openOk` is what the rest of the
      method (handshake, service lookup, listener, bootstrap) returns with a
      working logger, the `ok` of Mower.CloudHawkMower.Connect. */
  function ConnectWithLogger(loggerBound: bool, address: Option<string>, found: Option<string>, openOk: bool)
    : Outcome<bool>
  {
    // Without an address, `scan_for_mower` logs first; the scan is outside
    // the try block, so its exception reaches the caller.
    var target: Outcome<Option<string>> :=
      if address.Some? && address.value != "" then Returned(address)
      else (match LogCall(loggerBound)
            case Raised => Raised
            case Returned(_) => Returned(found));
    match target
    case Raised => Raised
    case Returned(a) =>
      if a.None? || a.value == "" then Returned(false)
      else
        // The try block opens with a log statement; its handler logs again.
        match LogCall(loggerBound)
        case Returned(_) => Returned(openOk)
        case Raised =>
          match LogCall(loggerBound)
          case Raised => Raised
          case Returned(_) => Returned(false)
  }

  /** As written, `connect` never returns at all, let alone True: every
      path meets a log statement whose NameError escapes. */
  lemma ConnectAsWrittenRaises(address: Option<string>, found: Option<string>, openOk: bool)
    ensures ConnectWithLogger(false, address, found, openOk) == Raised
  {
  }

  /** With a logger bound, `connect` returns what the rest of the method
      returns, once an address is known. */
  lemma ConnectWithBoundLogger(address: Option<string>, found: Option<string>, openOk: bool)
    ensures var a := if address.Some? && address.value != "" then address else found;
            ConnectWithLogger(true, address, found, openOk) == Returned(a.Some? && a.value != "" && openOk)
  {
  }

  // ---------------------------------------------------------------------
  // The notification handler

  /** The notification handler with its logging statements: the first one
      comes before the header check, so with no logger the frame never
      reaches the store. Gives the outcome and the store afterwards. */
  function HandleWithLogger(loggerBound: bool, store: ResponseStore, data: seq<byte>, now: Timestamp)
    : (Outcome<()>, ResponseStore)
  {
    match LogCall(loggerBound)
    case Raised => (Raised, store)
    case Returned(_) => (Returned(()), Receive(store, data, now))
  }

  /** As written, no notification changes the store. */
  lemma HandlerAsWrittenStoresNothing(store: ResponseStore, data: seq<byte>, now: Timestamp)
    ensures HandleWithLogger(false, store, data, now) == (Raised, store)
  {
  }

  /** The documented battery response, received as written into an empty
      store, leaves the snapshot at 0 % and not charging; with a logger bound
      it reads 100 %, charging. */
  lemma BatteryFrameLostAsWritten(now: Timestamp)
    ensures var frame: seq<byte> := [0x55, 0xAA, 0x08, 0x80, 0x83, 0x00, 0x00, 0xcd, 0x64, 0x00, 0x04, 0x3f];
            && Snapshot(HandleWithLogger(false, map[], frame, now).1).batteryLevel == 0
            && !Snapshot(HandleWithLogger(false, map[], frame, now).1).isCharging
            && Snapshot(HandleWithLogger(true, map[], frame, now).1).batteryLevel == 100
            && Snapshot(HandleWithLogger(true, map[], frame, now).1).isCharging
  {
    SnapshotOfEmpty();
    BatteryFrameExample(map[], now);
  }

  // ---------------------------------------------------------------------
  // get_mower_info

  /** `get_mower_info` with its logging statements: the closing one always
      runs before `self.mower_info = info`, so with no logger the call raises
      and `mower_info` keeps its old value. Gives the outcome and the new
      `mower_info`. */
  function GetMowerInfoWithLogger(loggerBound: bool, store: ResponseStore, previous: MowerInfo)
    : (Outcome<MowerInfo>, MowerInfo)
  {
    match LogCall(loggerBound)
    case Raised => (Raised, previous)
    case Returned(_) => (Returned(Snapshot(store)), Snapshot(store))
  }

  /** As written, `get_mower_info` fails even on an empty store, which the
      intended aggregator always answers with the defaults. */
  lemma GetMowerInfoAsWrittenRaises(store: ResponseStore, previous: MowerInfo)
    ensures GetMowerInfoWithLogger(false, store, previous) == (Raised, previous)
    ensures GetMowerInfoWithLogger(true, map[], previous) == (Returned(DefaultInfo), DefaultInfo)
  {
    SnapshotOfEmpty();
  }

  // ---------------------------------------------------------------------
  // The control methods, seen from the coordinator

  /** A control method such as `start_mowing`: it logs before building its
      frame, then `send_command` writes when the link is usable. Gives the
      outcome and whether the frame reached the wire. */
  function ControlWithLogger(loggerBound: bool, canWrite: bool, writeOk: bool): (Outcome<bool>, bool)
  {
    match LogCall(loggerBound)
    case Raised => (Raised, false)
    case Returned(_) => (Returned(canWrite && writeOk), canWrite && writeOk)
  }

  /** The coordinator's `send_command`: an exception from the mower method
      becomes False, a returned value is passed on. */
  function CoordinatorResult(o: Outcome<bool>): bool
  {
    match o
    case Raised => false
    case Returned(b) => b
  }

  /** As written, every named command reports failure and sends nothing;
      with a logger bound it succeeds exactly when the write goes through. */
  lemma ControlAsWrittenSendsNothing(canWrite: bool, writeOk: bool)
    ensures var (o, sent) := ControlWithLogger(false, canWrite, writeOk);
            !CoordinatorResult(o) && !sent
    ensures var (o, sent) := ControlWithLogger(true, canWrite, writeOk);
            CoordinatorResult(o) == (canWrite && writeOk) && sent == (canWrite && writeOk)
  {
  }

  // ---------------------------------------------------------------------
  // async_setup_entry

  /** The setters CloudHawkMower defines. */
  const MowerSetters: set<string> := {"set_data_update_callback"}

  /** The setters `async_setup_entry` calls, in order, before it schedules
      `_establish_connection`. */
  const SetupCalls: seq<string> := ["set_data_update_callback", "set_connection_status_callback"]

  /** `async_setup_entry` from the setter calls on: a setter the mower lacks
      raises AttributeError; otherwise the platforms are forwarded and one
      connection task is scheduled. Gives the number of connection tasks. */
  function SetupEntry(defined: set<string>, calls: seq<string>): Outcome<nat>
  {
    if calls == [] then Returned(1)
    else if calls[0] !in defined then Raised
    else SetupEntry(defined, calls[1..])
  }

  /** As written, setup stops before any connection attempt. */
  lemma SetupAsWrittenRaises()
    ensures SetupEntry(MowerSetters, SetupCalls) == Raised
  {
    assert SetupCalls[1..] == ["set_connection_status_callback"];
  }

  /** With the missing setter defined, setup schedules exactly one
      connection task, the loop of Coordinator.CloudHawkCoordinator.EstablishConnection. */
  lemma SetupWithStatusSetter()
    ensures SetupEntry(MowerSetters + {"set_connection_status_callback"}, SetupCalls) == Returned(1)
  {
    var defined := MowerSetters + {"set_connection_status_callback"};
    var rest: seq<string> := ["set_connection_status_callback"];
    assert SetupCalls[0] in defined && SetupCalls[1..] == rest;
    assert rest[0] in defined && rest[1..] == [];
    assert SetupEntry(defined, rest) == Returned(1);
  }
}
