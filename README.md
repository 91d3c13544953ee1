# CloudHawk mower integration, modelled in Dafny

This project models the core of the CloudHawk robotic-mower integration for
Home Assistant: the BLE (Bluetooth Low Energy) mower library and the two
Home Assistant pieces on top of it.

- **Frame codec** (`frame.dfy`). `generate_command` builds frames of the form
  `55 AA LEN CMD' content CHK`. `CMD'` is the command code, with the BLE
  prefix `80` added to a one-byte code. `CHK` is the byte sum mod 256. The
  notification handler parses inbound frames back into a store key, a payload
  window and a data part.
- **Text helpers** (`text.dfy`). These are the Python string operations the
  library uses: `decode('ascii', errors='ignore')`, `strip`, `lower`,
  `title`, `replace` and substring `in`.
- **Payload decoders** (`decoders.dfy`). These are the `_parse_*` functions:
  date, time, battery, signal type, trimming, schedule, status and fault
  records. Python's `date`/`time`/`datetime` range checks are written out.
- **Response store** (`store.dfy`). This is the dictionary the notification
  handler fills, keyed by the first two payload bytes, plus the getters.
  `Snapshot` is the `MowerInfo` that `get_mower_info` builds from the store.
- **Mower controller** (`mower.dfy`). The class `CloudHawkMower` has the
  connection flags, the characteristics, the store, the listener and
  maintenance flags, and the frames written. Its methods are:
  - `connect` (with the scan), `disconnect`, `is_connected`;
  - the listener start and stop, and the notification handler;
  - `send_command` and the six control commands;
  - `populate_initial_data`, `get_mower_info`, and maintenance start and stop.

  Every BLE call is replaced by the outcome it produced, passed in as a
  parameter: a scan result, a handshake success, the services found,
  subscribe and unsubscribe outcomes, and write outcomes.
- **Coordinator** (`coordinator.dfy`). This covers:
  - the name-to-command dispatch of `send_command`;
  - the dictionary `_async_update_data` builds, including the status label
    `value.replace('_', ' ').title()`;
  - the retry loop `_establish_connection`.
- **Lawn-mower entity** (`lawnmower.dfy`). This is the keyword rule that maps
  the status label to a Home Assistant activity, and the three commands the
  entity forwards by name.
- **Source defects** (`defects.dfy`). Two defects of the code as written, each
  beside the behaviour the other modules give the program (see "## Findings").

The main results proved are:
- an encoder/parser round trip;
- last-write-wins and commutation of the store;
- the exact defaults and field isolation of the snapshot;
- the status and signal tables;
- the stop rule and the bound of the fault-record loop;
- the bootstrap frames and the keys their responses land under;
- the state of the controller after every outcome of `connect`, and the
  frames the first-connect loop puts on the wire;
- the activity the entity shows for each mower state.

All paths below are relative to the repository root. Every `cloudhawk_mower.py`,
`__init__.py` and `lawn_mower.py` is under `custom_components/cloudhawk/`.

### Where the code is followed literally

- The bootstrap order is: firmware, serial, battery, signal, trimming,
  schedule, fault records (`cloudhawk_mower.py:407-435`).
- A notification whose length byte runs past the buffer is not rejected. Its
  window is whatever follows the length byte. The checksum is never examined
  (`cloudhawk_mower.py:345-351`).
- `_parse_schedule_data` tests every byte from offset 2 on. Charging means
  byte 7 equals `0x04` exactly.
- `start_constant_listener` sets its flag before subscribing. A failed
  subscription therefore leaves the flag set, and a later `connect` does not
  subscribe again (`cloudhawk_mower.py:332-338`). `Connect` states this: when
  the characteristics are found, success is "the flag was already set, or the
  subscription went through".
- Losing the link keeps `_listener_active` and the characteristics. A failed
  characteristic lookup calls `disconnect`. With neither service present, the
  characteristics found earlier are kept.
- `status.value ... if mower_info.status else "Unknown"`: an `Enum` member is
  always truthy, so the fallback is never taken (`__init__.py:137`).
- No decoder ever yields `IDLE` or `ERROR`. `get_mower_info` never calls
  `_parse_date` or `_parse_time`, so `current_date` and `current_time` stay
  `None`.

## Model

| member | source | states |
|---|---|---|
| Bytes.BigEndian16 | custom_components/cloudhawk/cloudhawk_mower.py:555 | `int.from_bytes(b[0:2], 'big')` is below 65536 and gives back its high and low bytes |
| Bytes.Sum | custom_components/cloudhawk/cloudhawk_mower.py:205-206 | definition, no contract of its own: `sum(command_bytes_array)`; proved about in Bytes.SumAppend and Frame.GeneratedChecksumValid |
| Bytes.HexDigit | custom_components/cloudhawk/cloudhawk_mower.py:355 | lowercase hex digits only: `0`-`9` and `a`-`f`; injectivity proved in Bytes.HexDigitInjective |
| Bytes.ByteHex | custom_components/cloudhawk/cloudhawk_mower.py:355 | `f"{b:02x}"` is two characters; proved injective in Bytes.ByteHexInjective |
| Bytes.HexInjective | custom_components/cloudhawk/cloudhawk_mower.py:356-357 | the hex text of a byte string determines it, so keying the store by the byte pair is the same as keying it by the string `f"{p0:02x}{p1:02x}"` |
| Bytes.SumAppend | custom_components/cloudhawk/cloudhawk_mower.py:204-205 | `sum(bytes)` of a concatenation is the sum of the parts |
| Bytes.Hex | custom_components/cloudhawk/cloudhawk_mower.py:341 | `bytes.hex()` has two characters per byte |
| Bytes.ByteHexInjective | custom_components/cloudhawk/cloudhawk_mower.py:355 | `f"{b:02x}"` determines the byte |
| Bytes.KeyHexExamples | custom_components/cloudhawk/cloudhawk_mower.py:437-467 | the byte pairs 80 02, 80 01, 80 83, 80 0b, 80 07, 80 70, 80 15 and 80 81 render as the string keys the getters look up |
| Frame.WidenCode | custom_components/cloudhawk/cloudhawk_mower.py:189-193 | definition, no contract of its own: a one-byte code gets the `80` prefix, any other code is used as given; what the encoder does with it is proved in Frame.GeneratedLayout and Frame.RoundTripKey |
| Frame.HexDigits | custom_components/cloudhawk/cloudhawk_mower.py:201 | the number of hex digits of a number is at least one |
| Frame.LengthFieldWidth | custom_components/cloudhawk/cloudhawk_mower.py:201 | `f"{n:02X}"` has at least two digits |
| Frame.BigEndian | custom_components/cloudhawk/cloudhawk_mower.py:205 | `bytes.fromhex` of 2k hex digits gives exactly k bytes |
| Frame.GenerateCommand | custom_components/cloudhawk/cloudhawk_mower.py:181-212 | definition, no contract of its own: `generate_command` over bytes; proved about in Frame.GeneratedLayout, Frame.GeneratedChecksumValid, Frame.ThreeDigitLengthFails and Frame.RoundTrip |
| Frame.GeneratedChecksumValid | custom_components/cloudhawk/cloudhawk_mower.py:204-212 | every frame the encoder produces ends in the sum of all bytes before it, mod 256 |
| Frame.SmallLengthWidth | custom_components/cloudhawk/cloudhawk_mower.py:201 | below 256 the length field has exactly two hex digits |
| Frame.GeneratedLayout | custom_components/cloudhawk/cloudhawk_mower.py:181-212 | below 256 payload bytes the encoder succeeds with `55 AA LEN CMD' content CHK`, where LEN counts `CMD'` and the content |
| Frame.ThreeDigitLengthFails | custom_components/cloudhawk/cloudhawk_mower.py:200-206 | for 256 to 4095 payload bytes the `{:02X}` length has three hex digits and `bytes.fromhex` raises |
| Frame.Window | custom_components/cloudhawk/cloudhawk_mower.py:346-347 | definition, no contract of its own: the declared window `data[3:3+length]`, truncated to the bytes present; proved about in Frame.AcceptedIff, Frame.AcceptedFields and Frame.OverlongLengthTruncated |
| Frame.ParseNotification | custom_components/cloudhawk/cloudhawk_mower.py:340-355 | definition, no contract of its own: the header check, window and key split of `notification_handler`; proved about in Frame.AcceptedIff, Frame.AcceptedFields, Frame.TrailerIgnored and Frame.RoundTrip |
| Frame.AcceptedIff | custom_components/cloudhawk/cloudhawk_mower.py:345-350 | a notification is stored exactly when it has the `55 AA` header and a window of at least two bytes |
| Frame.AcceptedFields | custom_components/cloudhawk/cloudhawk_mower.py:346-355 | an accepted notification's key is its first two payload bytes, and its data is the rest of the payload |
| Frame.OverlongLengthTruncated | custom_components/cloudhawk/cloudhawk_mower.py:346-347 | a length byte that overruns the buffer is not rejected: the payload is everything after it |
| Frame.TrailerIgnored | custom_components/cloudhawk/cloudhawk_mower.py:345-355 | bytes after the window, including the checksum, do not affect the parse |
| Frame.RoundTrip | custom_components/cloudhawk/cloudhawk_mower.py:181-212 | an encoded frame parses back to payload `CMD' ++ content`, with the key and data that payload implies |
| Frame.RoundTripKey | custom_components/cloudhawk/cloudhawk_mower.py:354-355 | the response key of an encoded frame is its widened command code |
| Text.DecodeAscii | custom_components/cloudhawk/cloudhawk_mower.py:659 | `decode('ascii', errors='ignore')` yields only ASCII characters and is never longer than its input |
| Text.DecodeAsciiExact | custom_components/cloudhawk/cloudhawk_mower.py:659 | pure-ASCII bytes decode one character per byte |
| Text.DecodeAsciiAppend | custom_components/cloudhawk/cloudhawk_mower.py:659 | decoding distributes over concatenation |
| Text.DecodeAsciiDropsHigh | custom_components/cloudhawk/cloudhawk_mower.py:659 | a byte of 128 or more is dropped, not replaced |
| Text.LeadingSpaceCount | custom_components/cloudhawk/cloudhawk_mower.py:659 | counts exactly the leading whitespace |
| Text.TrailingSpaceStart | custom_components/cloudhawk/cloudhawk_mower.py:659 | finds exactly where the trailing whitespace starts |
| Text.SkipSpaces | custom_components/cloudhawk/cloudhawk_mower.py:659 | the forward scan from an index stops at the first character that is not whitespace, or at the end |
| Text.BackOverSpaces | custom_components/cloudhawk/cloudhawk_mower.py:659 | the backward scan from an index stops just past the last character that is not whitespace, or at 0 |
| Text.StripSpec | custom_components/cloudhawk/cloudhawk_mower.py:659 | `strip()` gives a contiguous slice of its input with no whitespace at either end, removing only whitespace |
| Text.TrimmedSlice | custom_components/cloudhawk/cloudhawk_mower.py:659 | the slice between the leading and the trailing whitespace begins and ends with non-whitespace and is followed only by whitespace |
| Text.StripNoop | custom_components/cloudhawk/cloudhawk_mower.py:659 | a string without surrounding whitespace is unchanged |
| Text.StripIdempotent | custom_components/cloudhawk/cloudhawk_mower.py:659 | stripping twice is stripping once |
| Text.Strip | custom_components/cloudhawk/cloudhawk_mower.py:659 | definition, no contract of its own: `strip()`; proved about in Text.StripSpec, Text.StripNoop and Text.StripIdempotent |
| Text.IsSpace | custom_components/cloudhawk/cloudhawk_mower.py:659 | definition, no contract of its own: the ASCII characters `str.strip()` removes; proved about in Text.StripSpec and Text.TrimmedSlice |
| Text.Lower | custom_components/cloudhawk/lawn_mower.py:57 | `lower()` maps each character through the lowercase mapping and keeps the length |
| Text.LowerIdempotent | custom_components/cloudhawk/lawn_mower.py:57 | lowercasing twice is lowercasing once |
| Text.Title | custom_components/cloudhawk/__init__.py:137 | definition, no contract of its own: `title()`; proved about in Text.TitleOfLowerWord and Text.LowerRunUnchanged |
| Text.TitleAfter | custom_components/cloudhawk/__init__.py:137 | `title()` keeps the length of its input |
| Text.TitleOfLowerWord | custom_components/cloudhawk/__init__.py:137 | `title()` of a lowercase word capitalises its first letter only |
| Text.LowerRunUnchanged | custom_components/cloudhawk/__init__.py:137 | letters after a cased letter stay lowercase under `title()` |
| Text.ReplaceChar | custom_components/cloudhawk/__init__.py:137 | `replace('_', ' ')` changes exactly the matching characters |
| Text.ContainsIff | custom_components/cloudhawk/lawn_mower.py:60-69 | substring `in` holds exactly when the keyword occurs at some position |
| Text.Contains | custom_components/cloudhawk/lawn_mower.py:60-69 | definition, no contract of its own: substring `in`; proved about in Text.ContainsIff and LawnMower.MissingChar |
| Decoders.IsLeapYear | custom_components/cloudhawk/cloudhawk_mower.py:558 | definition, no contract of its own: the Gregorian leap-year rule `date()` applies; proved about in Decoders.DaysInMonth and Decoders.FaultRecordsStopExample (29 February 2025 is refused) |
| Decoders.DaysInMonth | custom_components/cloudhawk/cloudhawk_mower.py:551-561 | month lengths of the Gregorian calendar that `date()` checks lie between 28 and 31 |
| Decoders.ValidDate | custom_components/cloudhawk/cloudhawk_mower.py:558 | definition, no contract of its own: the arguments `date(year, month, day)` accepts, years 1-9999; proved about in Decoders.ParseDate, Decoders.FaultRecordsStopReason and Decoders.DecoderExamples |
| Decoders.ValidTime | custom_components/cloudhawk/cloudhawk_mower.py:569 | definition, no contract of its own: the arguments `time(hour, minute)` accepts; proved about in Decoders.ParseTime, Decoders.FaultRecordsStopReason and Decoders.DecoderExamples |
| Decoders.MakeDate | custom_components/cloudhawk/cloudhawk_mower.py:555-558 | definition, no contract of its own: `date(y, m, d)`, with the ValueError as None; its meaning for payloads is the contract of Decoders.ParseDate and Decoders.DecoderExamples |
| Decoders.MakeTime | custom_components/cloudhawk/cloudhawk_mower.py:566-569 | definition, no contract of its own: `time(h, m)`, with the ValueError as None; its meaning for payloads is the contract of Decoders.ParseTime and Decoders.DecoderExamples |
| Decoders.ParseDate | custom_components/cloudhawk/cloudhawk_mower.py:551-561 | a date comes back exactly when there are at least six bytes and bytes 2-5 form a valid date; it is that date |
| Decoders.ParseTime | custom_components/cloudhawk/cloudhawk_mower.py:563-572 | a time comes back exactly when there are at least four bytes and bytes 2-3 form a valid time; it is that time |
| Decoders.ParseBattery | custom_components/cloudhawk/cloudhawk_mower.py:574-586 | the level is a single byte |
| Decoders.SignalOf | custom_components/cloudhawk/cloudhawk_mower.py:588-594 | `SignalType(v)` has value v |
| Decoders.StateValue | custom_components/cloudhawk/cloudhawk_mower.py:40-48 | definition, no contract of its own: the `MowerState` values; proved about in Coordinator.StateValueLowercase and LawnMower.ActivityOfValue |
| Decoders.SignalValue | custom_components/cloudhawk/cloudhawk_mower.py:51-55 | definition, no contract of its own: the `SignalType` values 1, 2, 3; proved about in Decoders.SignalOf and Decoders.ParseSignalTypeTable |
| Decoders.SignalName | custom_components/cloudhawk/__init__.py:134 | definition, no contract of its own: `signal_type.name`; proved about in Coordinator.SignalNameRoundTrip |
| Decoders.AllZeroIff | custom_components/cloudhawk/cloudhawk_mower.py:602-608 | the `all(b == 0 ...)` test means every byte is zero |
| Decoders.AllZero | custom_components/cloudhawk/cloudhawk_mower.py:607 | definition, no contract of its own: `all(b == 0 for b in data_part)`; proved about in Decoders.AllZeroIff |
| Decoders.ParseScheduleData | custom_components/cloudhawk/cloudhawk_mower.py:602-608 | a schedule exists exactly when some byte from offset 2 on is non-zero |
| Decoders.ParseStatusTable | custom_components/cloudhawk/cloudhawk_mower.py:610-624 | RETURNING, MOWING, DOCKED and STOPPED each correspond exactly to status bytes 01, 38, 0b and 0e; IDLE and ERROR never come out; anything else is UNKNOWN |
| Decoders.ParseSignalTypeTable | custom_components/cloudhawk/cloudhawk_mower.py:588-594 | a byte 1-3 at offset 2 selects that signal; anything else, or a short payload, gives S1 |
| Decoders.ParseSignalType | custom_components/cloudhawk/cloudhawk_mower.py:588-594 | definition, no contract of its own: `_parse_signal_type`; its table is Decoders.ParseSignalTypeTable |
| Decoders.ParseTrimmingEnabled | custom_components/cloudhawk/cloudhawk_mower.py:596-600 | definition, no contract of its own: `_parse_trimming_enabled`; proved about in Store.TrimmingFieldIsolated, Store.ReceiveTrimmingReading and Store.TrimmingResponseRoundTrip |
| Decoders.ParseStatus | custom_components/cloudhawk/cloudhawk_mower.py:610-624 | definition, no contract of its own: `_parse_status`; its table is Decoders.ParseStatusTable |
| Decoders.DecoderExamples | custom_components/cloudhawk/cloudhawk_mower.py:551-600 | the examples in the decoders' own documentation, plus their short and out-of-range defaults |
| Decoders.DecodeFaultGroup | custom_components/cloudhawk/cloudhawk_mower.py:637-645 | definition, no contract of its own: one 7-byte group as a record, None where `datetime(...)` raises; proved about in Decoders.FaultRecordsInOrder, Decoders.FaultRecordsStopReason and Decoders.FaultGroupExamples |
| Decoders.FaultRecordsUnfold | custom_components/cloudhawk/cloudhawk_mower.py:634-648 | one loop step: decode a group, then stop or continue 7 bytes on |
| Decoders.FaultRecordsOf | custom_components/cloudhawk/cloudhawk_mower.py:633-647 | definition, no contract of its own: the records of a data part, group by group until the first invalid or incomplete one; the loop is proved equal to it in Decoders.ParseFaultRecords |
| Decoders.FaultRecords | custom_components/cloudhawk/cloudhawk_mower.py:626-648 | definition, no contract of its own: the records of a payload, from offset 2; bounded by Decoders.FaultRecordsBound |
| Decoders.FaultRecordsStep | custom_components/cloudhawk/cloudhawk_mower.py:634-646 | one turn of the while-loop keeps the records found so far plus the records still ahead equal to all records: an invalid group ends the list, a valid one is appended |
| Decoders.FaultRecordsOfGroup | custom_components/cloudhawk/cloudhawk_mower.py:634-645 | a valid group gives its record, followed by the records of what comes after it |
| Decoders.ParseFaultRecords | custom_components/cloudhawk/cloudhawk_mower.py:626-648 | the while-loop returns exactly the records of the reference definition `FaultRecords` |
| Decoders.FaultRecordsInOrder | custom_components/cloudhawk/cloudhawk_mower.py:634-645 | record k is group k, bytes 7k to 7k+6, decoded |
| Decoders.FaultRecordsShift | custom_components/cloudhawk/cloudhawk_mower.py:634-645 | a valid first group adds one record, and the groups after it are the groups of the rest, shifted by one |
| Decoders.FaultRecordsStopReason | custom_components/cloudhawk/cloudhawk_mower.py:634-646 | the loop stops only when fewer than 7 bytes remain or the next group is not a valid datetime |
| Decoders.FaultRecordsOfBound | custom_components/cloudhawk/cloudhawk_mower.py:634-645 | there is at most one record per 7 bytes |
| Decoders.FaultRecordsBound | custom_components/cloudhawk/cloudhawk_mower.py:629-648 | a payload of two bytes or fewer has no records; longer ones have at most (n-2)/7 |
| Decoders.FaultGroupExamples | custom_components/cloudhawk/cloudhawk_mower.py:637-645 | the groups `07e9 09 15 0b 33 05` and `07e8 02 1d 17 3b 2a` decode to 21 September 2025 11:51 with code 5, and 29 February 2024 23:59 with code 42 |
| Decoders.FaultRecordsOfTwoGroups | custom_components/cloudhawk/cloudhawk_mower.py:626-648 | a two-byte header, two valid groups and fewer than seven trailing bytes give exactly the two records, in order |
| Decoders.FaultRecordsExample | custom_components/cloudhawk/cloudhawk_mower.py:626-648 | two valid groups and a partial third decode to exactly two records |
| Decoders.FaultRecordsOfInvalidStart | custom_components/cloudhawk/cloudhawk_mower.py:643-647 | a data part whose first group is invalid gives no records |
| Decoders.FaultRecordsOfInvalidGroup | custom_components/cloudhawk/cloudhawk_mower.py:629-647 | a payload whose first group (bytes 2 to 8) is invalid gives no records, whatever follows it |
| Decoders.FaultRecordsStopExample | custom_components/cloudhawk/cloudhawk_mower.py:645-646 | an invalid date (29 February 2025) ends the list even when a valid group follows |
| Store.ReceiveEffect | custom_components/cloudhawk/cloudhawk_mower.py:340-360 | a rejected notification leaves the store alone; an accepted one writes its entry under its key and changes nothing else |
| Store.Receive | custom_components/cloudhawk/cloudhawk_mower.py:340-360 | definition, no contract of its own: the store after one notification; proved about in Store.ReceiveEffect, Store.LastWriteWins, Store.ReceiveCommutes and Store.ReceivePreservesWellFormed |
| Store.ReceivePreservesWellFormed | custom_components/cloudhawk/cloudhawk_mower.py:354-360 | every stored entry is what the parser derives from its raw frame, under its own key |
| Store.LastWriteWins | custom_components/cloudhawk/cloudhawk_mower.py:354-360 | a second response under the same key replaces the first |
| Store.ReceiveCommutes | custom_components/cloudhawk/cloudhawk_mower.py:354-360 | responses under different keys can arrive in either order |
| Store.ReceiveEncodedFrame | custom_components/cloudhawk/cloudhawk_mower.py:181-212 | an encoded frame, once received, is stored under its widened code with payload `CMD' ++ content` |
| Store.Lookup | custom_components/cloudhawk/cloudhawk_mower.py:437-467 | definition, no contract of its own: `response_store.get(key)` of each getter; proved about in Store.LookupAfterReceive |
| Store.LookupAfterReceive | custom_components/cloudhawk/cloudhawk_mower.py:437-467 | each getter, after a notification, returns the new entry if it has that key and the old one otherwise |
| Store.SnapshotOfEmpty | custom_components/cloudhawk/cloudhawk_mower.py:66-78 | an empty store gives the `MowerInfo()` defaults |
| Store.Snapshot | custom_components/cloudhawk/cloudhawk_mower.py:652-720 | definition, no contract of its own: the `MowerInfo` that `get_mower_info` assembles; proved about in the Store lemmas below and returned by Mower.CloudHawkMower.GetMowerInfo |
| Store.HasData | custom_components/cloudhawk/cloudhawk_mower.py:656-664 | definition, no contract of its own: the truthiness of an entry and its data part; proved about in Store.EmptySerialData, Store.EmptyFirmwareData, Store.SerialFieldIsolated and Store.FirmwareFieldIsolated |
| Store.HasPayload | custom_components/cloudhawk/cloudhawk_mower.py:666-712 | definition, no contract of its own: the truthiness of an entry and its payload; proved about in Store.SnapshotDefaults and the field isolation lemmas |
| Store.SnapshotDefaults | custom_components/cloudhawk/cloudhawk_mower.py:652-720 | each field whose key is missing keeps its default; date and time are always `None` |
| Store.SnapshotReadsOnlyInfoKeys | custom_components/cloudhawk/cloudhawk_mower.py:652-720 | `get_mower_info` depends only on the eight keys it reads |
| Store.BatteryFieldIsolated | custom_components/cloudhawk/cloudhawk_mower.py:670-676 | a new battery entry changes level and charging and nothing else |
| Store.FaultFieldIsolated | custom_components/cloudhawk/cloudhawk_mower.py:703-708 | a new fault entry changes the fault list and nothing else |
| Store.StatusFieldIsolated | custom_components/cloudhawk/cloudhawk_mower.py:711-716 | a new status entry changes the status and nothing else |
| Store.SerialFieldIsolated | custom_components/cloudhawk/cloudhawk_mower.py:656-660 | a new serial entry with data changes the serial number and nothing else |
| Store.FirmwareFieldIsolated | custom_components/cloudhawk/cloudhawk_mower.py:662-667 | a new firmware entry with data changes the firmware version and nothing else |
| Store.SignalFieldIsolated | custom_components/cloudhawk/cloudhawk_mower.py:678-684 | a new signal entry changes the signal type and nothing else |
| Store.TrimmingFieldIsolated | custom_components/cloudhawk/cloudhawk_mower.py:686-692 | a new trimming entry changes the trimming flag and nothing else |
| Store.ScheduleFieldIsolated | custom_components/cloudhawk/cloudhawk_mower.py:694-700 | a new schedule entry changes the schedule flag and nothing else |
| Store.SnapshotIgnoresOtherKeys | custom_components/cloudhawk/cloudhawk_mower.py:354-360 | a response under any other key leaves the snapshot unchanged |
| Store.EmptySerialData | custom_components/cloudhawk/cloudhawk_mower.py:657-660 | an empty serial data part, which is falsy, leaves the serial number empty |
| Store.EmptyFirmwareData | custom_components/cloudhawk/cloudhawk_mower.py:662-667 | an empty firmware data part, which is falsy, leaves the firmware version empty |
| Store.AsciiTextShape | custom_components/cloudhawk/cloudhawk_mower.py:657-660 | `decode('ascii', errors='ignore').strip()` gives ASCII text with no whitespace at either end |
| Store.AsciiText | custom_components/cloudhawk/cloudhawk_mower.py:659 | definition, no contract of its own: `decode('ascii', errors='ignore').strip()`; proved about in Store.AsciiTextShape |
| Store.TextField | custom_components/cloudhawk/cloudhawk_mower.py:657-666 | definition, no contract of its own: the serial and firmware blocks of `get_mower_info`; proved about in Store.SerialFieldIsolated, Store.FirmwareFieldIsolated, Store.EmptySerialData, Store.EmptyFirmwareData and Store.SerialNumberShape |
| Store.BatteryField | custom_components/cloudhawk/cloudhawk_mower.py:670-675 | definition, no contract of its own: the battery block; proved about in Store.BatteryFieldIsolated and Store.ReceiveBatteryReading |
| Store.SignalField | custom_components/cloudhawk/cloudhawk_mower.py:679-683 | definition, no contract of its own: the signal block; proved about in Store.SignalFieldIsolated |
| Store.TrimmingField | custom_components/cloudhawk/cloudhawk_mower.py:687-691 | definition, no contract of its own: the trimming block; proved about in Store.TrimmingFieldIsolated and Store.ReceiveTrimmingReading |
| Store.ScheduleField | custom_components/cloudhawk/cloudhawk_mower.py:695-699 | definition, no contract of its own: the schedule block; proved about in Store.ScheduleFieldIsolated |
| Store.FaultField | custom_components/cloudhawk/cloudhawk_mower.py:703-707 | definition, no contract of its own: the fault-record block; proved about in Store.FaultFieldIsolated |
| Store.StatusField | custom_components/cloudhawk/cloudhawk_mower.py:711-715 | definition, no contract of its own: the status block; proved about in Store.StatusFieldIsolated |
| Store.SerialNumberShape | custom_components/cloudhawk/cloudhawk_mower.py:657-660 | the serial number is ASCII with no whitespace at either end |
| Store.ReceiveBatteryFrame | custom_components/cloudhawk/cloudhawk_mower.py:670-676 | an accepted battery frame sets the battery fields from its payload and nothing else |
| Store.ReceiveBatteryReading | custom_components/cloudhawk/cloudhawk_mower.py:574-586 | after an accepted battery frame with at least eight payload bytes, the level is byte 5 and charging means byte 7 is `0x04` |
| Store.ReceiveTrimmingReading | custom_components/cloudhawk/cloudhawk_mower.py:596-600 | after an accepted trimming notification, the flag is on exactly when the length byte is at least 3, frame byte 5 is present and it is `01` |
| Store.TrimmingResponseRoundTrip | custom_components/cloudhawk/cloudhawk_mower.py:181-212 | a trimming response `80 07 t` framed by the encoder and received sets the trimming flag to `t == 01` and changes nothing else in `MowerInfo` |
| Store.BatteryFrameExample | custom_components/cloudhawk/cloudhawk_mower.py:574-586 | the documented frame `80830000cd640004` reads as 100 %, charging |
| Mower.CommandFrame | custom_components/cloudhawk/cloudhawk_mower.py:181-212 | `generate_command(code)` for a one-byte code is the six bytes `55 AA 02 80 code CHK` |
| Mower.BootstrapFrames | custom_components/cloudhawk/cloudhawk_mower.py:411-421 | definition, no contract of its own: the seven bootstrap frames in source order; proved about in Mower.BootstrapWrites and Mower.BootstrapKeys |
| Mower.Accepted | custom_components/cloudhawk/cloudhawk_mower.py:423-433 | the frames that reached the wire are a subsequence of the list, in list order, and no longer than it (`SubsequenceOf`) |
| Mower.AcceptedAppend | custom_components/cloudhawk/cloudhawk_mower.py:423-433 | one more loop step adds its frame exactly when its write succeeded |
| Mower.AcceptedAll | custom_components/cloudhawk/cloudhawk_mower.py:423-433 | when every write succeeds, every frame is sent |
| Mower.AcceptedNone | custom_components/cloudhawk/cloudhawk_mower.py:423-433 | when every write fails, nothing is sent |
| Mower.NameMatches | custom_components/cloudhawk/cloudhawk_mower.py:221 | definition, no contract of its own: a device has a name and it contains the device name; proved about in Mower.FirstMatchSpec and Mower.CloudHawkMower.ScanForMower |
| Mower.FirstMatch | custom_components/cloudhawk/cloudhawk_mower.py:220-223 | the index of the first device whose name contains the device name lies within the list |
| Mower.FirstMatchSpec | custom_components/cloudhawk/cloudhawk_mower.py:220-226 | no device before that index matches, and the one at it matches unless none does |
| Mower.BootstrapWrites | custom_components/cloudhawk/cloudhawk_mower.py:407-435 | all writes accepted means all seven frames sent in order; none accepted means none sent |
| Mower.BootstrapKeys | custom_components/cloudhawk/cloudhawk_mower.py:437-467 | each bootstrap frame, echoed back, is stored under the key its getter reads: 8001, 8002, 8083, 800b, 8007, 8070, 8015 |
| Mower.CharacteristicsAfter | custom_components/cloudhawk/cloudhawk_mower.py:244-253 | definition, no contract of its own: the characteristics after the service lookup; proved about in Mower.CloudHawkMower.SelectCharacteristics and Mower.CloudHawkMower.OpenClient |
| Mower.AddressFound | custom_components/cloudhawk/cloudhawk_mower.py:230-233 | definition, no contract of its own: `connect` has an address to open, given or from the scan; used in the contract of Mower.CloudHawkMower.Connect |
| Mower.ServiceComplete | custom_components/cloudhawk/cloudhawk_mower.py:244-256 | definition, no contract of its own: a known service is found and offers both characteristics; used in Mower.CloudHawkMower.Connect |
| Mower.ConnectMaySucceed | custom_components/cloudhawk/cloudhawk_mower.py:228-270 | definition, no contract of its own: what every successful `connect` needs of the transport; Mower.CloudHawkMower.Connect proves success implies it |
| Mower.ConnectMustSucceed | custom_components/cloudhawk/cloudhawk_mower.py:228-270 | definition, no contract of its own: what makes `connect` succeed from any state; Mower.CloudHawkMower.Connect proves it implies success |
| Mower.CloudHawkMower.constructor | custom_components/cloudhawk/cloudhawk_mower.py:149-167 | no client, no characteristics, empty store, all flags clear, default `MowerInfo` |
| Mower.CloudHawkMower.SetDataUpdateCallback | custom_components/cloudhawk/cloudhawk_mower.py:169-171 | a callback is registered |
| Mower.CloudHawkMower.IsConnected | custom_components/cloudhawk/cloudhawk_mower.py:291-293 | definition, no contract of its own: `is_connected()`, a client whose link is up; proved about in Mower.CloudHawkMower.LinkLost, Mower.CloudHawkMower.Disconnect and Mower.CloudHawkMower.Connect |
| Mower.CloudHawkMower.CanWrite | custom_components/cloudhawk/cloudhawk_mower.py:388 | definition, no contract of its own: the guard of `send_command`; proved about in Mower.CloudHawkMower.SendCommand |
| Mower.CloudHawkMower.LinkLost | custom_components/cloudhawk/cloudhawk_mower.py:291-293 | after the link drops, `is_connected()` is false |
| Mower.CloudHawkMower.HandleNotification | custom_components/cloudhawk/cloudhawk_mower.py:340-373 | the store becomes `Receive` of the old store, and the callback runs once per accepted frame when one is set |
| Mower.CloudHawkMower.SendCommand | custom_components/cloudhawk/cloudhawk_mower.py:386-405 | the result is true exactly when connected with a write characteristic and the write went through; only then is the frame appended |
| Mower.CloudHawkMower.SendInOrder | custom_components/cloudhawk/cloudhawk_mower.py:423-433 | each frame is tried once, in list order; each result is "connected with a write characteristic and that write went through"; the wire gets the accepted subsequence |
| Mower.CloudHawkMower.StartMowing | custom_components/cloudhawk/cloudhawk_mower.py:471-482 | same as `send_command`, with frame `55 AA 02 80 05 ..` |
| Mower.CloudHawkMower.StartMowingOnce | custom_components/cloudhawk/cloudhawk_mower.py:484-495 | same as `send_command`, with frame `.. 80 7D ..` |
| Mower.CloudHawkMower.StopMowing | custom_components/cloudhawk/cloudhawk_mower.py:497-508 | same as `send_command`, with frame `.. 80 29 ..` |
| Mower.CloudHawkMower.ReturnToDock | custom_components/cloudhawk/cloudhawk_mower.py:510-521 | same as `send_command`, with frame `.. 80 06 ..` |
| Mower.CloudHawkMower.StartSpiralCutting | custom_components/cloudhawk/cloudhawk_mower.py:523-534 | same as `send_command`, with frame `.. 80 79 ..` |
| Mower.CloudHawkMower.StartEdgeCutting | custom_components/cloudhawk/cloudhawk_mower.py:536-547 | same as `send_command`, with frame `.. 80 7c ..` |
| Mower.CloudHawkMower.PopulateInitialData | custom_components/cloudhawk/cloudhawk_mower.py:407-435 | all seven commands are tried in order whatever earlier ones did; what reaches the wire is the accepted subsequence of the bootstrap frames |
| Mower.CloudHawkMower.GetMowerInfo | custom_components/cloudhawk/cloudhawk_mower.py:652-720 | returns and stores the snapshot of the response store |
| Mower.CloudHawkMower.StartConnectionMaintenance | custom_components/cloudhawk/cloudhawk_mower.py:295-302 | afterwards the flag is set and a task exists; an active one is left alone |
| Mower.CloudHawkMower.StopConnectionMaintenance | custom_components/cloudhawk/cloudhawk_mower.py:304-310 | afterwards the flag is clear and no task exists |
| Mower.CloudHawkMower.StartConstantListener | custom_components/cloudhawk/cloudhawk_mower.py:332-338 | does nothing when already active or disconnected; otherwise sets the flag, and the subscription may still raise |
| Mower.CloudHawkMower.StopConstantListener | custom_components/cloudhawk/cloudhawk_mower.py:379-384 | unsubscribes only when active with a client and a notify characteristic; clears the flag only when that succeeds |
| Mower.CloudHawkMower.Disconnect | custom_components/cloudhawk/cloudhawk_mower.py:275-289 | when connected, client and listener flag are cleared even if unsubscribing fails; maintenance always stops; afterwards not connected |
| Mower.CloudHawkMower.ScanForMower | custom_components/cloudhawk/cloudhawk_mower.py:214-226 | the loop returns the address of the first device whose name contains the device name, or none |
| Mower.CloudHawkMower.SelectCharacteristics | custom_components/cloudhawk/cloudhawk_mower.py:241-253 | the main service wins, then SUMIC; with neither, the old characteristics stay |
| Mower.CloudHawkMower.Connect | custom_components/cloudhawk/cloudhawk_mower.py:228-273 | no address leaves every part of the state alone; otherwise the outcome follows `OpenedAsSpecified`: a failed handshake leaves a client that is not connected and changes nothing else, a missing characteristic disconnects and clears the client, and success leaves it connected, listening and maintaining; state-free bounds: a success needs an address, a handshake and a complete service when one is found, and an address, a handshake, a complete service and a working subscription always succeed; a failed connect writes nothing, and a successful one writes the accepted bootstrap frames |
| Mower.CloudHawkMower.OpenClient | custom_components/cloudhawk/cloudhawk_mower.py:235-273 | the four outcomes: a failed handshake changes only the client and writes nothing; a missing characteristic disconnects, clearing client, link, listener flag and maintenance; a failed subscription leaves the flags set and writes nothing; success sends the accepted bootstrap frames |
| Coordinator.ParseCommandName | custom_components/cloudhawk/__init__.py:170-183 | a command chosen by name has that name |
| Coordinator.CommandName | custom_components/cloudhawk/__init__.py:171-180 | definition, no contract of its own: the five names the dispatch accepts; proved about in Coordinator.CommandNameRoundTrip |
| Coordinator.ControlCode | custom_components/cloudhawk/__init__.py:171-180 | definition, no contract of its own: the command code each name's mower method sends; proved about in Coordinator.ControlFramesDistinct and Coordinator.CloudHawkCoordinator.SendCommand |
| Coordinator.CommandNameRoundTrip | custom_components/cloudhawk/__init__.py:170-183 | every command is chosen by its own name; a name is rejected exactly when no command has it |
| Coordinator.ControlFramesDistinct | custom_components/cloudhawk/__init__.py:170-181 | the five names put five different frames on the wire |
| Coordinator.StateValueLowercase | custom_components/cloudhawk/cloudhawk_mower.py:40-49 | every state value is a non-empty lowercase word |
| Coordinator.StatusLabel | custom_components/cloudhawk/__init__.py:137 | definition, no contract of its own: `status.value.replace('_', ' ').title()`; proved about in Coordinator.StatusLabelShape, Coordinator.StatusLabelOf and Coordinator.StatusLabelRoundTrip |
| Coordinator.StatusLabelShape | custom_components/cloudhawk/__init__.py:137 | the label is the state value with its first letter capitalised |
| Coordinator.LowerOfStatusLabel | custom_components/cloudhawk/__init__.py:137 | lowercasing the label gives back the state value |
| Coordinator.LabelTextShape | custom_components/cloudhawk/__init__.py:137 | the label table is the capitalised state values |
| Coordinator.StatusLabelOf | custom_components/cloudhawk/__init__.py:137 | each state's label is "Unknown", "Idle", "Mowing", "Docked", "Returning", "Stopped" or "Error" |
| Coordinator.CapitalisedFrom | custom_components/cloudhawk/__init__.py:137 | a string that agrees with a word except for an upper-cased first letter is that word capitalised |
| Coordinator.LabelTextRoundTrip | custom_components/cloudhawk/__init__.py:137 | each label in the table names its own state |
| Coordinator.StatusLabelRoundTrip | custom_components/cloudhawk/__init__.py:137 | the label determines the state |
| Coordinator.SignalNameRoundTrip | custom_components/cloudhawk/__init__.py:134 | `signal_type.name` determines the signal |
| Coordinator.ToDict | custom_components/cloudhawk/__init__.py:129-139 | definition, no contract of its own: the dictionary `_async_update_data` builds; proved about in Coordinator.ToDictLosesOnlyDateTime and returned by Coordinator.CloudHawkCoordinator.UpdateData |
| Coordinator.ToDictLosesOnlyDateTime | custom_components/cloudhawk/__init__.py:129-139 | two snapshots with the same dictionary agree on every field except date and time |
| Coordinator.CloudHawkCoordinator.constructor | custom_components/cloudhawk/__init__.py:66-80 | holds the mower and the address; no data yet |
| Coordinator.CloudHawkCoordinator.UpdateData | custom_components/cloudhawk/__init__.py:119-148 | returns the dictionary of the current snapshot, stores it as the last data and keeps the snapshot as `mower_info` |
| Coordinator.CloudHawkCoordinator.SendCommand | custom_components/cloudhawk/__init__.py:166-194 | an unknown name fails and writes nothing; a known name's result and its write are those of the matching mower command |
| Coordinator.CloudHawkCoordinator.EstablishConnection | custom_components/cloudhawk/__init__.py:150-164 | every try before the last failed; it stops early only on success, which leaves the mower connected, listening and maintaining; a try succeeds only if its transport allows `connect` to (ConnectMaySucceed), a try whose transport forces success (ConnectMustSucceed) succeeds, and the loop stops no later than the first such try; when every try failed nothing was written, and after the successful try the wire holds exactly the bootstrap frames that try's writes accepted |
| LawnMower.ActivityFor | custom_components/cloudhawk/lawn_mower.py:57-71 | the rule always gives one of the five Home Assistant activities |
| LawnMower.Activity | custom_components/cloudhawk/lawn_mower.py:52-71 | no data gives no activity; data always gives one of the five |
| LawnMower.ActivityIgnoresCase | custom_components/cloudhawk/lawn_mower.py:57 | the rule does not depend on letter case |
| LawnMower.EmptyStatusIsPaused | custom_components/cloudhawk/lawn_mower.py:57-71 | an empty status gives the "paused" fallback |
| LawnMower.MissingChar | custom_components/cloudhawk/lawn_mower.py:60-69 | a keyword with a character absent from the status is not `in` it |
| LawnMower.LowerOfLowercase | custom_components/cloudhawk/lawn_mower.py:57 | lowercasing leaves a string without capitals unchanged |
| LawnMower.ActivityOfValue | custom_components/cloudhawk/lawn_mower.py:60-71 | the rule applied to each state value gives that state's activity |
| LawnMower.ActivityOfMowingValue | custom_components/cloudhawk/lawn_mower.py:60-61 | helper step of LawnMower.ActivityOfValue: "mowing" gives "mowing" |
| LawnMower.MowingValueKeywords | custom_components/cloudhawk/lawn_mower.py:60-61 | helper step of LawnMower.ActivityOfValue: "mowing" contains its own keyword |
| LawnMower.ActivityOfReturningValue | custom_components/cloudhawk/lawn_mower.py:60-63 | helper step of LawnMower.ActivityOfValue: "returning" gives "returning_to_base" |
| LawnMower.ReturningValueKeywords | custom_components/cloudhawk/lawn_mower.py:60-63 | helper step of LawnMower.ActivityOfValue: "returning" contains neither "mowing" nor "cutting", and contains "returning" |
| LawnMower.ActivityOfDockedValue | custom_components/cloudhawk/lawn_mower.py:60-65 | helper step of LawnMower.ActivityOfValue: "docked" gives "docked" |
| LawnMower.DockedValueKeywords | custom_components/cloudhawk/lawn_mower.py:60-65 | helper step of LawnMower.ActivityOfValue: "docked" contains none of the keywords of the first two tests, and contains "docked" |
| LawnMower.ActivityOfStoppedValue | custom_components/cloudhawk/lawn_mower.py:60-67 | helper step of LawnMower.ActivityOfValue: "stopped" gives "paused" |
| LawnMower.StoppedValueKeywords | custom_components/cloudhawk/lawn_mower.py:60-67 | helper step of LawnMower.ActivityOfValue: "stopped" contains none of the keywords of the first three tests, and contains "stopped" |
| LawnMower.ActivityOfIdleValue | custom_components/cloudhawk/lawn_mower.py:60-67 | helper step of LawnMower.ActivityOfValue: "idle" gives "paused" |
| LawnMower.IdleValueKeywords | custom_components/cloudhawk/lawn_mower.py:60-67 | helper step of LawnMower.ActivityOfValue: "idle" contains none of the keywords of the first three tests, and contains "idle" |
| LawnMower.ActivityOfUnknownValue | custom_components/cloudhawk/lawn_mower.py:60-71 | helper step of LawnMower.ActivityOfValue: "unknown" falls through to "paused" |
| LawnMower.UnknownMissesFirstPairs | custom_components/cloudhawk/lawn_mower.py:60-65 | helper step of LawnMower.ActivityOfValue: "unknown" contains none of "mowing", "cutting", "returning", "docking", "charging", "docked" |
| LawnMower.UnknownMissesLastPairs | custom_components/cloudhawk/lawn_mower.py:66-69 | helper step of LawnMower.ActivityOfValue: "unknown" contains none of "idle", "stopped", "error", "fault" |
| LawnMower.ActivityOfErrorValue | custom_components/cloudhawk/lawn_mower.py:60-69 | helper step of LawnMower.ActivityOfValue: "error" gives "error" |
| LawnMower.ErrorValueKeywords | custom_components/cloudhawk/lawn_mower.py:60-69 | helper step of LawnMower.ActivityOfValue: "error" contains none of the keywords of the first four tests, and contains "error" |
| LawnMower.ActivityOfState | custom_components/cloudhawk/lawn_mower.py:52-71 | through the coordinator's label: mowing, returning to base, docked, error, and paused for stopped, idle and unknown |
| LawnMower.CloudHawkLawnMowerEntity.StartMowing | custom_components/cloudhawk/lawn_mower.py:78-80 | sends "start", which writes frame 05 when the write goes through |
| LawnMower.CloudHawkLawnMowerEntity.Pause | custom_components/cloudhawk/lawn_mower.py:82-84 | sends "stop", which writes frame 29 when the write goes through |
| LawnMower.CloudHawkLawnMowerEntity.Dock | custom_components/cloudhawk/lawn_mower.py:86-88 | sends "dock", which writes frame 06 when the write goes through |
| LawnMower.CloudHawkLawnMowerEntity.constructor | custom_components/cloudhawk/lawn_mower.py:34-36 | the entity holds its coordinator |
| Defects.ConnectWithLogger | custom_components/cloudhawk/cloudhawk_mower.py:214-273 | definition, no contract of its own: `connect` with its log statements, whatever the logger; proved about in Defects.ConnectAsWrittenRaises and Defects.ConnectWithBoundLogger |
| Defects.ConnectAsWrittenRaises | custom_components/cloudhawk/cloudhawk_mower.py:216-272 | with `logger` unbound, `connect` raises NameError on every path and never returns True |
| Defects.ConnectWithBoundLogger | custom_components/cloudhawk/cloudhawk_mower.py:228-273 | with a bound logger, `connect` returns the result of the rest of the method once an address is known, and False without one |
| Defects.HandleWithLogger | custom_components/cloudhawk/cloudhawk_mower.py:340-373 | definition, no contract of its own: the notification handler with its first log statement; proved about in Defects.HandlerAsWrittenStoresNothing and Defects.BatteryFrameLostAsWritten |
| Defects.HandlerAsWrittenStoresNothing | custom_components/cloudhawk/cloudhawk_mower.py:340-342 | with `logger` unbound, no notification reaches the store |
| Defects.BatteryFrameLostAsWritten | custom_components/cloudhawk/cloudhawk_mower.py:340-373 | the documented battery frame reads as 0 %, not charging, as written, and 100 %, charging, with a bound logger |
| Defects.GetMowerInfoWithLogger | custom_components/cloudhawk/cloudhawk_mower.py:652-720 | definition, no contract of its own: `get_mower_info` with its closing log statement; proved about in Defects.GetMowerInfoAsWrittenRaises |
| Defects.GetMowerInfoAsWrittenRaises | custom_components/cloudhawk/cloudhawk_mower.py:718-719 | with `logger` unbound, `get_mower_info` raises and `mower_info` is unchanged; with a bound logger an empty store gives the defaults |
| Defects.ControlWithLogger | custom_components/cloudhawk/cloudhawk_mower.py:471-482 | definition, no contract of its own: a control method with its opening log statement; proved about in Defects.ControlAsWrittenSendsNothing |
| Defects.CoordinatorResult | custom_components/cloudhawk/__init__.py:185-194 | definition, no contract of its own: the coordinator's `try`/`except` around the mower method; proved about in Defects.ControlAsWrittenSendsNothing |
| Defects.ControlAsWrittenSendsNothing | custom_components/cloudhawk/__init__.py:166-194 | with `logger` unbound, every named command reports False and writes nothing; with a bound logger it succeeds exactly when the write goes through |
| Defects.SetupEntry | custom_components/cloudhawk/__init__.py:39-49 | definition, no contract of its own: `async_setup_entry` from the setter calls to the connection task; proved about in Defects.SetupAsWrittenRaises and Defects.SetupWithStatusSetter |
| Defects.SetupAsWrittenRaises | custom_components/cloudhawk/__init__.py:39-49 | as written, setup raises before any connection task is scheduled |
| Defects.SetupWithStatusSetter | custom_components/cloudhawk/__init__.py:39-49 | with the missing setter defined, setup schedules exactly one connection task |

## Left out

- BLE I/O (Bleak scanning, connecting, GATT writes and subscriptions): each call is replaced by the outcome it produced, passed in as a parameter. Exceptions are booleans in those outcomes.
- Timing: `asyncio.sleep`, the `timeout` setting, the scan time and `datetime.now()`. Entry timestamps are opaque `Timestamp` values that a caller supplies.
- `_connection_maintenance_loop` (`cloudhawk_mower.py:312-330`): a background task that loops forever and reconnects without an address. Only its start and stop flags are modelled; what one `connect` does is modelled in `Connect`.
- Scheduling of Home Assistant updates (`__init__.py:86-116`), `async_setup_entry`, `async_unload_entry` and the `available`/`name` properties. On the mower side, the update callback is counted rather than run.
- `set_connection_status_callback` (`__init__.py:40`): `cloudhawk_mower.py` defines no such method. As written, the AttributeError ends `async_setup_entry` before the `_establish_connection` task is created (`__init__.py:49`); the other modules model the setup as if the call were absent (see "## Findings").
- `_get_command_name` and all logging: the model assumes a bound module logger (`logging.getLogger(__name__)`), under which these only build log text. As written, `cloudhawk_mower.py` never binds `logger`, so every `logger.` call raises NameError (see "## Findings").
- The `sensor`, `switch`, `button` and `config_flow` platforms. `lawn_mower` is not in the `PLATFORMS` list either; its entity is modelled all the same.
- The `description` field of `FaultRecord` is always empty in the code and is left out. Seconds and microseconds of the fault timestamp are always zero and are not modelled.
- Text.Lower: only ASCII letters are case-mapped. Python's Unicode rules for `lower()` and `title()` are not modelled. The status labels, keywords and state values are all ASCII.
- Text.IsSpace: it covers the ASCII whitespace and separator characters that `str.strip()` removes. Python also strips wider Unicode whitespace, which cannot occur after an ASCII decode.
- Mower.CloudHawkMower.Connect: an exception raised by the scan is modelled as a failed connect with no state change (`scanOk` false). In the source it propagates to the caller, and both callers treat it as a failed attempt.
- Mower.CloudHawkMower.PopulateInitialData: it takes exactly seven write outcomes, one per bootstrap command.
- Coordinator.CloudHawkCoordinator.EstablishConnection: the source retries for ever. The model tries once per element of a finite list of attempts and states what holds when the list runs out. A try whose transport satisfies ConnectMaySucceed but not ConnectMustSucceed has an outcome that depends on the mower state the earlier tries left (the old characteristics when no known service is found, an already active listener); the contract bounds it from both sides rather than naming it.
- Coordinator.CloudHawkCoordinator.UpdateData: the `UpdateFailed` path cannot occur in the model, because `get_mower_info` has no failing step here.
- `generate_command` with content: the model takes code and content as bytes. The hex-string handling of the source (`len(x) // 2` on hex text, odd-length hex strings) is not modelled. The length field of three or more hex digits is modelled.
- The `Commands` constants that no modelled method sends (RESET, GET_STATUS, the settings, records and system commands) are not declared.

## Findings

| source | as written | input that shows it | evidently intended | confidence | as-written member | corrected member |
|---|---|---|---|---|---|---|
| custom_components/cloudhawk/cloudhawk_mower.py:31 | `logging` is imported but `logger` is never bound, so each of the 65 `logger.` calls raises NameError: `connect` raises at 216 or 236/272, the notification handler at 342 before storing, each control method at 473-538 before sending, and `get_mower_info` at 718 | any call; e.g. the battery frame `55 AA 08 80 83 00 00 cd 64 00 04 3f` leaves the store empty | a module logger, `logger = logging.getLogger(__name__)`, so logging has no effect on behaviour | high, not executed | Defects.ConnectAsWrittenRaises, Defects.HandlerAsWrittenStoresNothing, Defects.BatteryFrameLostAsWritten, Defects.GetMowerInfoAsWrittenRaises, Defects.ControlAsWrittenSendsNothing | Mower.CloudHawkMower.Connect, Mower.CloudHawkMower.HandleNotification, Store.BatteryFrameExample, Mower.CloudHawkMower.GetMowerInfo, Coordinator.CloudHawkCoordinator.SendCommand |
| custom_components/cloudhawk/__init__.py:40 | `async_setup_entry` calls `mower.set_connection_status_callback`, which CloudHawkMower does not define; the AttributeError ends the setup before the connection task of line 49 is created | any config entry | the setter exists (or the call is absent), and setup goes on to schedule `_establish_connection` | high, not executed | Defects.SetupAsWrittenRaises | Defects.SetupWithStatusSetter, Coordinator.CloudHawkCoordinator.EstablishConnection |
