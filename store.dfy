/** The response store and the information it is aggregated into: what the
    notification handler writes and what `get_mower_info` reads. */
module Store {
  import opened Wrappers
  import opened Bytes
  import opened Frame
  import opened Text
  import opened Decoders

  /** An opaque wall-clock reading (`datetime.now()` at arrival). */
  type Timestamp = int

  /** The response key (payload[0], payload[1]); the source spells it as the
      four hex characters Hex([key.0, key.1]), which determines the pair
      (Bytes.HexInjective). */
  type Key = (byte, byte)

  /** One store entry: 'timestamp', 'payload', 'data', 'raw_data', 'hex'. */
  datatype Entry = Entry(timestamp: Timestamp, payload: seq<byte>, data: seq<byte>, raw: seq<byte>, hex: string)

  type ResponseStore = map<Key, Entry>

  /** Every entry is exactly what the parser derives from its own raw frame,
      stored under the key that frame carries. */
  ghost predicate EntryWellFormed(k: Key, e: Entry)
  {
    && ParseNotification(e.raw) == Some(Notification(k, e.payload, e.data))
    && e.hex == Hex(e.raw)
  }

  ghost predicate WellFormed(store: ResponseStore)
  {
    forall k :: k in store ==> EntryWellFormed(k, store[k])
  }

  /** The store after one notification `data` arriving at time `now`: an
      accepted frame replaces the entry under its key, anything else leaves
      the store alone. */
  function Receive(store: ResponseStore, data: seq<byte>, now: Timestamp): ResponseStore
  {
    match ParseNotification(data)
    case None => store
    case Some(n) => store[n.key := Entry(now, n.payload, n.data, data, Hex(data))]
  }

  /** The store only changes when the frame is accepted, and then only under
      the frame's key; the new entry is the frame, its window and its data. */
  lemma ReceiveEffect(store: ResponseStore, data: seq<byte>, now: Timestamp)
    ensures ParseNotification(data).None? ==> Receive(store, data, now) == store
    ensures ParseNotification(data).Some? ==>
              var n := ParseNotification(data).value;
              var r := Receive(store, data, now);
              && r.Keys == store.Keys + {n.key}
              && r[n.key] == Entry(now, n.payload, n.data, data, Hex(data))
              && (forall k :: k in store && k != n.key ==> r[k] == store[k])
  {
  }

  /** Receiving keeps every entry well formed. */
  lemma ReceivePreservesWellFormed(store: ResponseStore, data: seq<byte>, now: Timestamp)
    requires WellFormed(store)
    ensures WellFormed(Receive(store, data, now))
  {
  }

  /** Last write wins: of two accepted frames with the same key, only the
      second is retrievable. */
  lemma LastWriteWins(store: ResponseStore, d1: seq<byte>, t1: Timestamp, d2: seq<byte>, t2: Timestamp)
    requires ParseNotification(d1).Some? && ParseNotification(d2).Some?
    requires ParseNotification(d1).value.key == ParseNotification(d2).value.key
    ensures Receive(Receive(store, d1, t1), d2, t2) == Receive(store, d2, t2)
  {
  }

  /** Frames under different keys commute. */
  lemma ReceiveCommutes(store: ResponseStore, d1: seq<byte>, t1: Timestamp, d2: seq<byte>, t2: Timestamp)
    requires ParseNotification(d1).Some? && ParseNotification(d2).Some?
    requires ParseNotification(d1).value.key != ParseNotification(d2).value.key
    ensures Receive(Receive(store, d1, t1), d2, t2) == Receive(Receive(store, d2, t2), d1, t1)
  {
  }

  /** A frame the mower library itself encodes, echoed back, lands under the
      widened command code with the command and content as payload. */
  lemma ReceiveEncodedFrame(store: ResponseStore, code: seq<byte>, content: seq<byte>, now: Timestamp)
    requires 1 <= |code| && |WidenCode(code)| + |content| < 256
    ensures GenerateCommand(code, content).Success?
    ensures var frame := GenerateCommand(code, content).value;
            var payload := WidenCode(code) + content;
            var r := Receive(store, frame, now);
            && (payload[0], payload[1]) in r
            && r[(payload[0], payload[1])].payload == payload
            && r[(payload[0], payload[1])].data == payload[2..]
            && (forall k :: k in store && k != (payload[0], payload[1]) ==> r[k] == store[k])
  {
    RoundTrip(code, content);
  }

  // ---------------------------------------------------------------------
  // The aggregated snapshot

  /** MowerInfo, with its defaults below. */
  datatype MowerInfo = MowerInfo(
    serialNumber: string,
    firmwareVersion: string,
    batteryLevel: int,
    isCharging: bool,
    signalType: SignalType,
    trimmingEnabled: bool,
    currentDate: Option<Date>,
    currentTime: Option<Time>,
    hasSchedule: bool,
    status: MowerState,
    faultRecords: seq<FaultRecord>)

  /** `MowerInfo()`. */
  const DefaultInfo := MowerInfo("", "", 0, false, S1, false, None, None, false, Unknown, [])

  // The keys the getters look up ("8002", "8001", ...).
  const SerialKey: Key := (0x80, 0x02)
  const FirmwareKey: Key := (0x80, 0x01)
  const BatteryKey: Key := (0x80, 0x83)
  const SignalKey: Key := (0x80, 0x0b)
  const TrimmingKey: Key := (0x80, 0x07)
  const ScheduleKey: Key := (0x80, 0x70)
  const FaultKey: Key := (0x80, 0x15)
  const StatusKey: Key := (0x80, 0x81)

  /** The eight keys the snapshot reads. */
  const InfoKeys: set<Key> := {SerialKey, FirmwareKey, BatteryKey, SignalKey, TrimmingKey, ScheduleKey, FaultKey, StatusKey}

  /** `store.get(key)`, as the getters `get_serial_data` ... `get_status_data` do. */
  function Lookup(store: ResponseStore, k: Key): Option<Entry>
  {
    if k in store then Some(store[k]) else None
  }

  /** What a getter returns after one more notification: the new entry when
      the frame was accepted under that key, the earlier answer otherwise. */
  lemma LookupAfterReceive(store: ResponseStore, data: seq<byte>, now: Timestamp, k: Key)
    ensures var p := ParseNotification(data);
            Lookup(Receive(store, data, now), k)
              == if p.Some? && p.value.key == k then Some(Entry(now, p.value.payload, p.value.data, data, Hex(data)))
                 else Lookup(store, k)
  {
  }

  /** `x.get('data')` is truthy. */
  predicate HasData(e: Option<Entry>)
  {
    e.Some? && |e.value.data| > 0
  }

  /** `x.get('payload')` is truthy. */
  predicate HasPayload(e: Option<Entry>)
  {
    e.Some? && |e.value.payload| > 0
  }

  /** `data.decode('ascii', errors='ignore').strip()`. */
  function AsciiText(b: seq<byte>): string
  {
    Strip(DecodeAscii(b))
  }

  /** The text of the entry under key, "" when it has no data. */
  function TextField(store: ResponseStore, key: Key): string
  {
    var e := Lookup(store, key);
    if HasData(e) then AsciiText(e.value.data) else ""
  }

  /** Battery level and charging flag, (0, false) without a payload. */
  function BatteryField(store: ResponseStore): (int, bool)
  {
    var e := Lookup(store, BatteryKey);
    if HasPayload(e) then ParseBattery(e.value.payload) else (0, false)
  }

  function SignalField(store: ResponseStore): SignalType
  {
    var e := Lookup(store, SignalKey);
    if HasPayload(e) then ParseSignalType(e.value.payload) else S1
  }

  function TrimmingField(store: ResponseStore): bool
  {
    var e := Lookup(store, TrimmingKey);
    if HasPayload(e) then ParseTrimmingEnabled(e.value.payload) else false
  }

  function ScheduleField(store: ResponseStore): bool
  {
    var e := Lookup(store, ScheduleKey);
    if HasPayload(e) then ParseScheduleData(e.value.payload) else false
  }

  function FaultField(store: ResponseStore): seq<FaultRecord>
  {
    var e := Lookup(store, FaultKey);
    if HasPayload(e) then FaultRecords(e.value.payload) else []
  }

  function StatusField(store: ResponseStore): MowerState
  {
    var e := Lookup(store, StatusKey);
    if HasPayload(e) then ParseStatus(e.value.payload) else Unknown
  }

  /** What `get_mower_info` assembles from a store, field by field. */
  function Snapshot(store: ResponseStore): MowerInfo
  {
    MowerInfo(
      TextField(store, SerialKey),
      TextField(store, FirmwareKey),
      BatteryField(store).0,
      BatteryField(store).1,
      SignalField(store),
      TrimmingField(store),
      None,
      None,
      ScheduleField(store),
      StatusField(store),
      FaultField(store))
  }

  /** An empty store gives the MowerInfo defaults. */
  lemma SnapshotOfEmpty()
    ensures Snapshot(map[]) == DefaultInfo
  {
  }

  /** Every field whose key is absent keeps its default, and the date and
      time are never filled in. */
  lemma SnapshotDefaults(store: ResponseStore)
    ensures SerialKey !in store ==> Snapshot(store).serialNumber == ""
    ensures FirmwareKey !in store ==> Snapshot(store).firmwareVersion == ""
    ensures BatteryKey !in store ==> Snapshot(store).batteryLevel == 0 && !Snapshot(store).isCharging
    ensures SignalKey !in store ==> Snapshot(store).signalType == S1
    ensures TrimmingKey !in store ==> !Snapshot(store).trimmingEnabled
    ensures ScheduleKey !in store ==> !Snapshot(store).hasSchedule
    ensures FaultKey !in store ==> Snapshot(store).faultRecords == []
    ensures StatusKey !in store ==> Snapshot(store).status == Unknown
    ensures Snapshot(store).currentDate.None? && Snapshot(store).currentTime.None?
  {
  }

  /** The snapshot reads nothing but the eight keys. */
  lemma SnapshotReadsOnlyInfoKeys(store: ResponseStore, other: ResponseStore)
    requires forall k :: k in InfoKeys ==> Lookup(store, k) == Lookup(other, k)
    ensures Snapshot(store) == Snapshot(other)
  {
    assert Lookup(store, SerialKey) == Lookup(other, SerialKey);
    assert Lookup(store, FirmwareKey) == Lookup(other, FirmwareKey);
    assert Lookup(store, BatteryKey) == Lookup(other, BatteryKey);
    assert Lookup(store, SignalKey) == Lookup(other, SignalKey);
    assert Lookup(store, TrimmingKey) == Lookup(other, TrimmingKey);
    assert Lookup(store, ScheduleKey) == Lookup(other, ScheduleKey);
    assert Lookup(store, FaultKey) == Lookup(other, FaultKey);
    assert Lookup(store, StatusKey) == Lookup(other, StatusKey);
  }

  /** A new battery entry changes the battery fields and nothing else. */
  lemma BatteryFieldIsolated(store: ResponseStore, e: Entry)
    requires |e.payload| > 0
    ensures var before := Snapshot(store);
            var after := Snapshot(store[BatteryKey := e]);
            after == before.(batteryLevel := ParseBattery(e.payload).0, isCharging := ParseBattery(e.payload).1)
  {
  }

  /** A new fault-record entry changes the fault list and nothing else. */
  lemma FaultFieldIsolated(store: ResponseStore, e: Entry)
    requires |e.payload| > 0
    ensures var before := Snapshot(store);
            var after := Snapshot(store[FaultKey := e]);
            after == before.(faultRecords := FaultRecords(e.payload))
  {
  }

  /** A new status entry changes the status and nothing else. */
  lemma StatusFieldIsolated(store: ResponseStore, e: Entry)
    requires |e.payload| > 0
    ensures var before := Snapshot(store);
            var after := Snapshot(store[StatusKey := e]);
            after == before.(status := ParseStatus(e.payload))
  {
  }

  /** A new serial entry with data changes the serial number and nothing else. */
  lemma SerialFieldIsolated(store: ResponseStore, e: Entry)
    requires |e.data| > 0
    ensures var before := Snapshot(store);
            var after := Snapshot(store[SerialKey := e]);
            after == before.(serialNumber := AsciiText(e.data))
  {
  }

  /** A new firmware entry with data changes the firmware version and nothing else. */
  lemma FirmwareFieldIsolated(store: ResponseStore, e: Entry)
    requires |e.data| > 0
    ensures var before := Snapshot(store);
            var after := Snapshot(store[FirmwareKey := e]);
            after == before.(firmwareVersion := AsciiText(e.data))
  {
  }

  /** A new signal entry changes the signal type and nothing else. */
  lemma SignalFieldIsolated(store: ResponseStore, e: Entry)
    requires |e.payload| > 0
    ensures var before := Snapshot(store);
            var after := Snapshot(store[SignalKey := e]);
            after == before.(signalType := ParseSignalType(e.payload))
  {
  }

  /** A new trimming entry changes the trimming flag and nothing else. */
  lemma TrimmingFieldIsolated(store: ResponseStore, e: Entry)
    requires |e.payload| > 0
    ensures var before := Snapshot(store);
            var after := Snapshot(store[TrimmingKey := e]);
            after == before.(trimmingEnabled := ParseTrimmingEnabled(e.payload))
  {
  }

  /** A new schedule entry changes the schedule flag and nothing else. */
  lemma ScheduleFieldIsolated(store: ResponseStore, e: Entry)
    requires |e.payload| > 0
    ensures var before := Snapshot(store);
            var after := Snapshot(store[ScheduleKey := e]);
            after == before.(hasSchedule := ParseScheduleData(e.payload))
  {
  }

  /** A notification under any key outside the eight does not change the snapshot. */
  lemma SnapshotIgnoresOtherKeys(store: ResponseStore, data: seq<byte>, now: Timestamp)
    requires ParseNotification(data).Some? && ParseNotification(data).value.key !in InfoKeys
    ensures Snapshot(Receive(store, data, now)) == Snapshot(store)
  {
    var r := Receive(store, data, now);
    forall k | k in InfoKeys
      ensures Lookup(r, k) == Lookup(store, k)
    {
    }
    SnapshotReadsOnlyInfoKeys(r, store);
  }

  /** An entry under the serial key whose data is empty leaves the serial number "". */
  lemma EmptySerialData(store: ResponseStore)
    requires SerialKey in store && store[SerialKey].data == []
    ensures Snapshot(store).serialNumber == ""
  {
  }

  /** An entry under the firmware key whose data is empty leaves the firmware version "". */
  lemma EmptyFirmwareData(store: ResponseStore)
    requires FirmwareKey in store && store[FirmwareKey].data == []
    ensures Snapshot(store).firmwareVersion == ""
  {
  }

  /** ASCII text is pure ASCII without surrounding whitespace. */
  lemma AsciiTextShape(b: seq<byte>)
    ensures var s := AsciiText(b);
            && (forall i :: 0 <= i < |s| ==> s[i] as int < 128)
            && (|s| > 0 ==> !IsSpace(s[0]) && !IsSpace(s[|s| - 1]))
  {
    var t := DecodeAscii(b);
    StripSpec(t);
    var s := Strip(t);
    var lo := LeadingSpaceCount(t);
    assert forall i :: 0 <= i < |s| ==> s[i] == t[lo + i];
  }

  /** The serial number is the ASCII text of the serial entry's data, without
      surrounding whitespace. */
  lemma SerialNumberShape(store: ResponseStore)
    requires HasData(Lookup(store, SerialKey))
    ensures var s := Snapshot(store).serialNumber;
            && (forall i :: 0 <= i < |s| ==> s[i] as int < 128)
            && (|s| > 0 ==> !IsSpace(s[0]) && !IsSpace(s[|s| - 1]))
  {
    assert Snapshot(store).serialNumber == AsciiText(store[SerialKey].data);
    AsciiTextShape(store[SerialKey].data);
  }

  /** An accepted frame under the battery key sets the battery fields from
      its payload and leaves every other field as it was. */
  lemma ReceiveBatteryFrame(store: ResponseStore, data: seq<byte>, now: Timestamp)
    requires ParseNotification(data).Some? && ParseNotification(data).value.key == BatteryKey
    ensures var p := ParseNotification(data).value.payload;
            Snapshot(Receive(store, data, now))
              == Snapshot(store).(batteryLevel := ParseBattery(p).0, isCharging := ParseBattery(p).1)
  {
    var n := ParseNotification(data).value;
    BatteryFieldIsolated(store, Entry(now, n.payload, n.data, data, Hex(data)));
  }

  /** The battery reading of an accepted battery frame with a full payload:
      the level is payload byte 5 and charging means byte 7 is 04. */
  lemma ReceiveBatteryReading(store: ResponseStore, data: seq<byte>, now: Timestamp)
    requires ParseNotification(data).Some? && ParseNotification(data).value.key == BatteryKey
    requires |ParseNotification(data).value.payload| >= 8
    ensures var p := ParseNotification(data).value.payload;
            var info := Snapshot(Receive(store, data, now));
            info.batteryLevel == p[5] && info.isCharging == (p[7] == 0x04)
  {
    ReceiveBatteryFrame(store, data, now);
  }

  /** The trimming flag of an accepted trimming frame, read off the wire: it
      is on exactly when the length byte covers a third payload byte, that
      byte is present, and it is 01 (frame byte 5). */
  lemma ReceiveTrimmingReading(store: ResponseStore, data: seq<byte>, now: Timestamp)
    requires ParseNotification(data).Some? && ParseNotification(data).value.key == TrimmingKey
    ensures Snapshot(Receive(store, data, now)).trimmingEnabled
            <==> data[2] >= 3 && |data| >= 6 && data[5] == 0x01
  {
    var n := ParseNotification(data).value;
    AcceptedFields(data);
    TrimmingFieldIsolated(store, Entry(now, n.payload, n.data, data, Hex(data)));
  }

  /** A trimming response `80 07 t`, framed by the encoder and received,
      turns the trimming flag on exactly when t is 01, and leaves the rest of
      the snapshot alone. */
  lemma TrimmingResponseRoundTrip(store: ResponseStore, t: byte, now: Timestamp)
    ensures GenerateCommand([0x07], [t]).Success?
    ensures Snapshot(Receive(store, GenerateCommand([0x07], [t]).value, now))
            == Snapshot(store).(trimmingEnabled := t == 0x01)
  {
    var frame := GenerateCommand([0x07], [t]).value;
    ReceiveEncodedFrame(store, [0x07], [t], now);
    GeneratedLayout([0x07], [t]);
    var n := ParseNotification(frame).value;
    assert n.key == TrimmingKey && n.payload == [0x80, 0x07, t];
    TrimmingFieldIsolated(store, Entry(now, n.payload, n.data, frame, Hex(frame)));
  }

  /** The documented battery response 80 83 00 00 cd 64 00 04, received in a
      55AA frame, reads as 100 %, charging. */
  lemma BatteryFrameExample(store: ResponseStore, now: Timestamp)
    ensures var frame: seq<byte> := [0x55, 0xAA, 0x08, 0x80, 0x83, 0x00, 0x00, 0xcd, 0x64, 0x00, 0x04, 0x3f];
            var info := Snapshot(Receive(store, frame, now));
            info.batteryLevel == 100 && info.isCharging
  {
    var frame: seq<byte> := [0x55, 0xAA, 0x08, 0x80, 0x83, 0x00, 0x00, 0xcd, 0x64, 0x00, 0x04, 0x3f];
    var p := Window(frame);
    assert p == frame[3..11];
    assert p[0] == 0x80 && p[1] == 0x83 && p[5] == 0x64 && p[7] == 0x04;
    assert ParseNotification(frame) == Some(Notification((p[0], p[1]), p, p[2..]));
    ReceiveBatteryReading(store, frame, now);
  }
}
