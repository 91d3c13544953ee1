/** The payload decoders `_parse_*` of the mower library. Each takes the whole
    payload (command byte, status byte, then data) and never fails: short or
    out-of-range input gives a documented default. */
module Decoders {
  import opened Wrappers
  import opened Bytes

  // ---------------------------------------------------------------------
  // Enumerations

  /** Operational states of the mower, with the values the source gives them. */
  datatype MowerState = Unknown | Idle | Mowing | Docked | Returning | Stopped | Error

  /** `MowerState.value`. */
  function StateValue(s: MowerState): string
  {
    match s
    case Unknown => "unknown"
    case Idle => "idle"
    case Mowing => "mowing"
    case Docked => "docked"
    case Returning => "returning"
    case Stopped => "stopped"
    case Error => "error"
  }

  /** Boundary-signal selection S1, S2, S3 (values 1, 2, 3). */
  datatype SignalType = S1 | S2 | S3

  /** `SignalType.value`. */
  function SignalValue(s: SignalType): int
  {
    match s
    case S1 => 1
    case S2 => 2
    case S3 => 3
  }

  /** `SignalType.name`. */
  function SignalName(s: SignalType): string
  {
    match s
    case S1 => "S1"
    case S2 => "S2"
    case S3 => "S3"
  }

  // ---------------------------------------------------------------------
  // The proleptic Gregorian calendar as Python's datetime checks it.

  datatype Date = Date(year: int, month: int, day: int)
  datatype Time = Time(hour: int, minute: int)
  datatype DateTime = DateTime(date: Date, time: Time)

  predicate IsLeapYear(y: int)
  {
    y % 4 == 0 && (y % 100 != 0 || y % 400 == 0)
  }

  function DaysInMonth(y: int, m: int): (d: int)
    requires 1 <= m <= 12
    ensures 28 <= d <= 31
  {
    if m == 2 then (if IsLeapYear(y) then 29 else 28)
    else if m == 4 || m == 6 || m == 9 || m == 11 then 30
    else 31
  }

  /** The arguments `date(year, month, day)` accepts (MINYEAR 1, MAXYEAR 9999). */
  predicate ValidDate(y: int, m: int, d: int)
  {
    1 <= y <= 9999 && 1 <= m <= 12 && 1 <= d <= DaysInMonth(y, m)
  }

  /** The arguments `time(hour, minute)` accepts. */
  predicate ValidTime(h: int, mi: int)
  {
    0 <= h <= 23 && 0 <= mi <= 59
  }

  /** `date(y, m, d)`, with the ValueError it raises as None. */
  function MakeDate(y: int, m: int, d: int): (r: Option<Date>)
  {
    if ValidDate(y, m, d) then Some(Date(y, m, d)) else None
  }

  /** `time(h, mi)`, with the ValueError it raises as None. */
  function MakeTime(h: int, mi: int): (r: Option<Time>)
  {
    if ValidTime(h, mi) then Some(Time(h, mi)) else None
  }

  // ---------------------------------------------------------------------
  // Single-field decoders

  /** `_parse_date`: big-endian year at 2..3, month at 4, day at 5. The
      contract states acceptance through the calendar predicate ValidDate,
      which is what callers reason with, rather than through MakeDate. */
  function ParseDate(payload: seq<byte>): (r: Option<Date>)
    ensures r.Some? <==>
              |payload| >= 6 && ValidDate(BigEndian16(payload[2], payload[3]), payload[4], payload[5])
    ensures r.Some? ==>
              r.value == Date(BigEndian16(payload[2], payload[3]), payload[4], payload[5])
  {
    if |payload| >= 6 then
      MakeDate(BigEndian16(payload[2], payload[3]), payload[4], payload[5])
    else
      None
  }

  /** `_parse_time`: hour at 2, minute at 3. As for ParseDate, the contract
      states acceptance through ValidTime rather than through MakeTime. */
  function ParseTime(payload: seq<byte>): (r: Option<Time>)
    ensures r.Some? <==> |payload| >= 4 && ValidTime(payload[2], payload[3])
    ensures r.Some? ==> r.value == Time(payload[2], payload[3])
  {
    if |payload| >= 4 then MakeTime(payload[2], payload[3]) else None
  }

  /** `_parse_battery`: (level, charging). */
  function ParseBattery(payload: seq<byte>): (r: (int, bool))
    ensures 0 <= r.0 < 256
  {
    if |payload| >= 8 then (payload[5] as int, payload[7] == 0x04) else (0, false)
  }

  /** `SignalType(v)` for a value the enumeration has. */
  function SignalOf(v: int): (s: SignalType)
    requires 1 <= v <= 3
    ensures SignalValue(s) == v
  {
    if v == 1 then S1 else if v == 2 then S2 else S3
  }

  /** `_parse_signal_type`. */
  function ParseSignalType(payload: seq<byte>): SignalType
  {
    if |payload| >= 3 && 1 <= payload[2] <= 3 then SignalOf(payload[2]) else S1
  }

  /** `_parse_trimming_enabled`. */
  function ParseTrimmingEnabled(payload: seq<byte>): bool
  {
    if |payload| >= 3 then payload[2] == 0x01 else false
  }

  function AllZero(s: seq<byte>): bool
  {
    s == [] || (s[0] == 0 && AllZero(s[1..]))
  }

  lemma {:induction false} AllZeroIff(s: seq<byte>)
    ensures AllZero(s) <==> forall i :: 0 <= i < |s| ==> s[i] == 0
  {
    if s != [] {
      AllZeroIff(s[1..]);
      assert forall i :: 1 <= i < |s| ==> s[i] == s[1..][i - 1];
    }
  }

  /** `_parse_schedule_data`: a schedule is present unless every byte from
      offset 2 on is zero. */
  function ParseScheduleData(payload: seq<byte>): (r: bool)
    ensures r <==> |payload| > 2 && exists i :: 2 <= i < |payload| && payload[i] != 0
  {
    if |payload| > 2 then
      AllZeroIff(payload[2..]);
      assert forall i :: 2 <= i < |payload| ==> payload[i] == payload[2..][i - 2];
      !AllZero(payload[2..])
    else
      false
  }

  /** `_parse_status`: status byte at offset 2. */
  function ParseStatus(payload: seq<byte>): MowerState
  {
    if |payload| >= 3 then
      match payload[2]
      case 0x01 => Returning
      case 0x38 => Mowing
      case 0x0b => Docked
      case 0x0e => Stopped
      case _ => Unknown
    else
      Unknown
  }

  /** The status table read backwards: which status bytes give which state.
      Idle and Error are never produced. */
  lemma ParseStatusTable(payload: seq<byte>)
    ensures ParseStatus(payload) == Returning <==> |payload| >= 3 && payload[2] == 0x01
    ensures ParseStatus(payload) == Mowing <==> |payload| >= 3 && payload[2] == 0x38
    ensures ParseStatus(payload) == Docked <==> |payload| >= 3 && payload[2] == 0x0b
    ensures ParseStatus(payload) == Stopped <==> |payload| >= 3 && payload[2] == 0x0e
    ensures ParseStatus(payload) != Idle && ParseStatus(payload) != Error
  {
  }

  /** The signal selector read backwards: the byte at offset 2 is the
      selector's value when it is 1, 2 or 3; anything else reads as S1.
      Stated through SignalValue, so that the byte is recovered from the
      enum rather than the enum rebuilt from the byte. */
  lemma ParseSignalTypeTable(payload: seq<byte>)
    ensures |payload| >= 3 && 1 <= payload[2] <= 3 ==> SignalValue(ParseSignalType(payload)) == payload[2]
    ensures !(|payload| >= 3 && 1 <= payload[2] <= 3) ==> ParseSignalType(payload) == S1
  {
  }

  /** The examples the decoders document. */
  lemma DecoderExamples()
    ensures ParseBattery([0x80, 0x83, 0x00, 0x00, 0xcd, 0x64, 0x00, 0x04]) == (100, true)
    ensures ParseSignalType([0x80, 0x0b, 0x02]) == S2
    ensures ParseTrimmingEnabled([0x80, 0x07, 0x01])
    ensures ParseDate([0x80, 0x19, 0x07, 0xe9, 0x09, 0x15]) == Some(Date(2025, 9, 21))
    ensures ParseTime([0x80, 0x1b, 0x0b, 0x33]) == Some(Time(11, 51))
    ensures ParseStatus([0x80, 0x81, 0x38]) == Mowing && ParseStatus([0x80, 0x81, 0x0b]) == Docked
    ensures ParseStatus([0x80, 0x81, 0x02]) == Unknown
    // charging is an equality test on the byte, not a bit test
    ensures ParseBattery([0x80, 0x83, 0x00, 0x00, 0xcd, 0x64, 0x00, 0x0c]) == (100, false)
    // short payloads read as the defaults
    ensures ParseBattery([0x80, 0x83, 0x00, 0x00, 0xcd, 0x64, 0x00]) == (0, false)
    ensures ParseSignalType([0x80, 0x0b, 0x04]) == S1 && ParseSignalType([0x80, 0x0b]) == S1
    ensures !ParseTrimmingEnabled([0x80, 0x07]) && !ParseTrimmingEnabled([0x80, 0x07, 0x02])
    ensures ParseDate([0x80, 0x19, 0x07, 0xe9, 0x02, 0x1d]) == None && ParseDate([0x80, 0x19, 0x07, 0xe9, 0x09]) == None
    ensures ParseTime([0x80, 0x1b, 0x18, 0x00]) == None && ParseTime([0x80, 0x1b, 0x0b]) == None
  {
  }

  // ---------------------------------------------------------------------
  // Fault records

  /** One fault record: when it happened and the error code. */
  datatype FaultRecord = FaultRecord(timestamp: DateTime, errorCode: byte)

  /** One 7-byte group: year (2 bytes, big-endian), month, day, hour, minute,
      error code; None where `datetime(...)` would raise. */
  function DecodeFaultGroup(g: seq<byte>): (r: Option<FaultRecord>)
    requires |g| >= 7
  {
    var year := BigEndian16(g[0], g[1]);
    if ValidDate(year, g[2], g[3]) && ValidTime(g[4], g[5]) then
      Some(FaultRecord(DateTime(Date(year, g[2], g[3]), Time(g[4], g[5])), g[6]))
    else
      None
  }

  /** The records of a data part: whole groups in order, up to the first
      invalid one or the first incomplete one. */
  function FaultRecordsOf(data: seq<byte>): seq<FaultRecord>
    decreases |data|
  {
    if |data| < 7 then []
    else
      match DecodeFaultGroup(data[..7])
      case None => []
      case Some(rec) => [rec] + FaultRecordsOf(data[7..])
  }

  /** What `_parse_fault_records` returns for a whole payload. */
  function FaultRecords(payload: seq<byte>): seq<FaultRecord>
  {
    if |payload| > 2 then FaultRecordsOf(payload[2..]) else []
  }

  /** One step of FaultRecordsOf at offset i. */
  lemma FaultRecordsUnfold(data: seq<byte>, i: nat)
    requires i + 7 <= |data|
    ensures FaultRecordsOf(data[i..]) ==
              match DecodeFaultGroup(data[i..i + 7])
              case None => []
              case Some(rec) => [rec] + FaultRecordsOf(data[i + 7..])
  {
    assert data[i..][..7] == data[i..i + 7];
    assert data[i..][7..] == data[i + 7..];
  }

  /** One turn of the loop in `_parse_fault_records`: an invalid group ends
      the records, a valid one is appended and the offset moves on. */
  lemma FaultRecordsStep(data: seq<byte>, i: nat, records: seq<FaultRecord>)
    requires i + 7 <= |data|
    requires records + FaultRecordsOf(data[i..]) == FaultRecordsOf(data)
    ensures DecodeFaultGroup(data[i..i + 7]).None? ==> records == FaultRecordsOf(data)
    ensures DecodeFaultGroup(data[i..i + 7]).Some? ==>
              (records + [DecodeFaultGroup(data[i..i + 7]).value]) + FaultRecordsOf(data[i + 7..]) == FaultRecordsOf(data)
  {
    FaultRecordsUnfold(data, i);
    var rec := DecodeFaultGroup(data[i..i + 7]);
    if rec.Some? {
      assert (records + [rec.value]) + FaultRecordsOf(data[i + 7..]) == records + ([rec.value] + FaultRecordsOf(data[i + 7..]));
    }
  }

  /** `_parse_fault_records`: the while-loop over offset i in the data part. */
  method ParseFaultRecords(payload: seq<byte>) returns (records: seq<FaultRecord>)
    ensures records == FaultRecords(payload)
  {
    records := [];
    if |payload| > 2 {
      var data := payload[2..];
      var i := 0;
      while i + 6 < |data|
        invariant 0 <= i <= |data|
        invariant records + FaultRecordsOf(data[i..]) == FaultRecordsOf(data)
      {
        var rec := DecodeFaultGroup(data[i..i + 7]);
        FaultRecordsStep(data, i, records);
        if rec.None? {
          break;
        }
        records := records + [rec.value];
        i := i + 7;
      }
      assert |data[i..]| < 7 ==> records + FaultRecordsOf(data[i..]) == records + [];
    }
  }

  /** Group k of a data part, the bytes at 7k .. 7k+6. */
  function Group(data: seq<byte>, k: nat): seq<byte>
    requires 7 * k + 7 <= |data|
  {
    data[7 * k..7 * k + 7]
  }

  /** Records come out in payload order: record k is group k decoded. */
  lemma {:induction false} FaultRecordsInOrder(data: seq<byte>, k: nat)
    requires k < |FaultRecordsOf(data)|
    ensures 7 * k + 7 <= |data|
    ensures DecodeFaultGroup(Group(data, k)) == Some(FaultRecordsOf(data)[k])
    decreases |data|
  {
    if k > 0 {
      FaultRecordsInOrder(data[7..], k - 1);
      assert Group(data[7..], k - 1) == Group(data, k);
    }
  }

  /** A valid first group contributes one record; groups after it are the
      groups of the rest, shifted by one. */
  lemma FaultRecordsShift(data: seq<byte>, n: nat)
    requires |data| >= 7 && DecodeFaultGroup(data[..7]).Some?
    ensures |FaultRecordsOf(data)| == 1 + |FaultRecordsOf(data[7..])|
    ensures n > 0 && 7 * n + 7 <= |data| ==> Group(data[7..], n - 1) == Group(data, n)
  {
  }

  /** Parsing stops only where it must: after the last record either fewer
      than 7 bytes remain or the next group is invalid. */
  lemma {:induction false} FaultRecordsStopReason(data: seq<byte>)
    ensures var n := |FaultRecordsOf(data)|;
            7 * n + 7 <= |data| ==> DecodeFaultGroup(Group(data, n)).None?
    decreases |data|
  {
    if |data| >= 7 {
      if DecodeFaultGroup(data[..7]).Some? {
        FaultRecordsShift(data, |FaultRecordsOf(data)|);
        FaultRecordsStopReason(data[7..]);
      } else {
        assert FaultRecordsOf(data) == [];
        assert Group(data, 0) == data[..7];
      }
    }
  }

  /** At most one record per complete 7-byte group. */
  lemma {:induction false} FaultRecordsOfBound(data: seq<byte>)
    ensures 7 * |FaultRecordsOf(data)| <= |data|
    decreases |data|
  {
    if |data| >= 7 && DecodeFaultGroup(data[..7]).Some? {
      FaultRecordsOfBound(data[7..]);
    }
  }

  /** The count bound for a payload: at most (|payload| - 2) / 7, none at all
      for a payload of two bytes or fewer. */
  lemma FaultRecordsBound(payload: seq<byte>)
    ensures |payload| <= 2 ==> FaultRecords(payload) == []
    ensures |payload| > 2 ==> |FaultRecords(payload)| <= (|payload| - 2) / 7
  {
    if |payload| > 2 {
      FaultRecordsOfBound(payload[2..]);
    }
  }

  /** The two groups of the example below, decoded. */
  lemma FaultGroupExamples()
    ensures DecodeFaultGroup([0x07, 0xe9, 0x09, 0x15, 0x0b, 0x33, 0x05])
            == Some(FaultRecord(DateTime(Date(2025, 9, 21), Time(11, 51)), 5))
    ensures DecodeFaultGroup([0x07, 0xe8, 0x02, 0x1d, 0x17, 0x3b, 0x2a])
            == Some(FaultRecord(DateTime(Date(2024, 2, 29), Time(23, 59)), 42))
  {
  }

  /** Two valid groups followed by an incomplete third yield exactly the two
      records, in order. */
  lemma FaultRecordsExample()
    ensures FaultRecords([0x80, 0x15]
                         + [0x07, 0xe9, 0x09, 0x15, 0x0b, 0x33, 0x05]
                         + [0x07, 0xe8, 0x02, 0x1d, 0x17, 0x3b, 0x2a]
                         + [0x07, 0xe9, 0x01])
            == [FaultRecord(DateTime(Date(2025, 9, 21), Time(11, 51)), 5),
                FaultRecord(DateTime(Date(2024, 2, 29), Time(23, 59)), 42)]
  {
    FaultGroupExamples();
    FaultRecordsOfTwoGroups([0x80, 0x15],
                            [0x07, 0xe9, 0x09, 0x15, 0x0b, 0x33, 0x05],
                            [0x07, 0xe8, 0x02, 0x1d, 0x17, 0x3b, 0x2a],
                            [0x07, 0xe9, 0x01],
                            FaultRecord(DateTime(Date(2025, 9, 21), Time(11, 51)), 5),
                            FaultRecord(DateTime(Date(2024, 2, 29), Time(23, 59)), 42));
  }

  /** A two-byte header, two valid groups and fewer than seven bytes after
      them give the two records. */
  lemma FaultRecordsOfTwoGroups(header: seq<byte>, g1: seq<byte>, g2: seq<byte>, tail: seq<byte>,
                                r1: FaultRecord, r2: FaultRecord)
    requires |header| == 2 && |g1| == 7 && |g2| == 7 && |tail| < 7
    requires DecodeFaultGroup(g1) == Some(r1) && DecodeFaultGroup(g2) == Some(r2)
    ensures FaultRecords(header + g1 + g2 + tail) == [r1, r2]
  {
    var payload := header + g1 + g2 + tail;
    assert payload[2..] == g1 + (g2 + tail);
    FaultRecordsOfGroup(g1, g2 + tail, r1);
    FaultRecordsOfGroup(g2, tail, r2);
    assert FaultRecordsOf(tail) == [];
  }

  /** A valid group followed by anything decodes to its record followed by
      the records of the rest. */
  lemma FaultRecordsOfGroup(g: seq<byte>, rest: seq<byte>, rec: FaultRecord)
    requires |g| == 7 && DecodeFaultGroup(g) == Some(rec)
    ensures FaultRecordsOf(g + rest) == [rec] + FaultRecordsOf(rest)
  {
    assert (g + rest)[..7] == g;
    assert (g + rest)[7..] == rest;
  }

  /** An invalid group at the start of a data part gives no records. */
  lemma FaultRecordsOfInvalidStart(data: seq<byte>)
    requires |data| >= 7 && DecodeFaultGroup(data[..7]).None?
    ensures FaultRecordsOf(data) == []
  {
  }

  /** An invalid first group ends the list there, whatever follows it. */
  lemma FaultRecordsOfInvalidGroup(payload: seq<byte>)
    requires |payload| >= 9 && DecodeFaultGroup(payload[2..9]).None?
    ensures FaultRecords(payload) == []
  {
    assert payload[2..][..7] == payload[2..9];
    FaultRecordsOfInvalidStart(payload[2..]);
  }

  /** A group with an impossible date (29 February of a common year) ends the
      list there, even when a valid group follows. */
  lemma FaultRecordsStopExample()
    ensures FaultRecords([0x80, 0x15]
                         + [0x07, 0xe9, 0x02, 0x1d, 0x0b, 0x33, 0x05]
                         + [0x07, 0xe8, 0x02, 0x1d, 0x17, 0x3b, 0x2a]) == []
  {
    var g: seq<byte> := [0x07, 0xe9, 0x02, 0x1d, 0x0b, 0x33, 0x05];
    var payload := [0x80, 0x15] + g + [0x07, 0xe8, 0x02, 0x1d, 0x17, 0x3b, 0x2a];
    assert payload[2..9] == g;
    assert BigEndian16(g[0], g[1]) == 2025;
    assert !ValidDate(2025, 2, 29);
    FaultRecordsOfInvalidGroup(payload);
  }
}
