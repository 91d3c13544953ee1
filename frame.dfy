/** The 55AA frame codec: the outbound encoder `generate_command` and the
    inbound window parse done by the notification handler. */
module Frame {
  import opened Wrappers
  import opened Bytes

  const HEAD: seq<byte> := [0x55, 0xAA]
  /** BLE_C1, the sub-prefix that widens a one-byte command code. */
  const BLE_C1: byte := 0x80

  /** The command as sent: a one-byte code is widened to `80 code`, any other
      code passes through unchanged. */
  function WidenCode(code: seq<byte>): (full: seq<byte>)
  {
    if |code| == 1 then [BLE_C1] + code else code
  }

  /** Number of hex digits of n. */
  function HexDigits(n: nat): (d: nat)
    ensures d >= 1
  {
    if n < 16 then 1 else 1 + HexDigits(n / 16)
  }

  /** Width of f"{n:02X}": at least two digits. */
  function LengthFieldWidth(n: nat): (w: nat)
    ensures w >= 2
  {
    if HexDigits(n) < 2 then 2 else HexDigits(n)
  }

  /** The k trailing bytes of n, most significant first (what `bytes.fromhex`
      makes of 2k hex digits). */
  function BigEndian(n: nat, k: nat): (r: seq<byte>)
    ensures |r| == k
  {
    if k == 0 then [] else BigEndian(n / 256, k - 1) + [n % 256]
  }

  /** Why `generate_command` raises: an odd number of hex digits in the length
      field makes `bytes.fromhex` reject the whole command string. */
  datatype EncodeError = OddLengthField(totalLength: nat)

  /** `generate_command(code, content)` over bytes instead of hex strings. */
  function GenerateCommand(code: seq<byte>, content: seq<byte>): Result<seq<byte>, EncodeError>
  {
    var full := WidenCode(code);
    var total := |full| + |content|;
    var width := LengthFieldWidth(total);
    if width % 2 == 1 then
      Failure(OddLengthField(total))
    else
      var body := HEAD + BigEndian(total, width / 2) + full + content;
      Success(body + [Sum(body) % 256])
  }

  /** The frame invariant: the last byte is the sum of all bytes before it, mod 256. */
  predicate ChecksumValid(frame: seq<byte>)
  {
    |frame| >= 1 && frame[|frame| - 1] == Sum(frame[..|frame| - 1]) % 256
  }

  /** Every frame the encoder produces carries a valid checksum. */
  lemma GeneratedChecksumValid(code: seq<byte>, content: seq<byte>)
    requires GenerateCommand(code, content).Success?
    ensures ChecksumValid(GenerateCommand(code, content).value)
  {
    var full := WidenCode(code);
    var total := |full| + |content|;
    var body := HEAD + BigEndian(total, LengthFieldWidth(total) / 2) + full + content;
    var frame := body + [Sum(body) % 256];
    assert frame[..|frame| - 1] == body;
  }

  lemma SmallLengthWidth(total: nat)
    requires total < 256
    ensures LengthFieldWidth(total) == 2
  {
    if total >= 16 {
      assert HexDigits(total / 16) == 1;
    }
  }

  /** With at most 255 command and content bytes the encoder succeeds and lays
      the frame out as 55 AA | LEN | CMD' | content | CHK, 3 + LEN + 1 bytes. */
  lemma GeneratedLayout(code: seq<byte>, content: seq<byte>)
    requires |WidenCode(code)| + |content| < 256
    ensures var full := WidenCode(code);
            var total := |full| + |content|;
            var r := GenerateCommand(code, content);
            && r.Success?
            && |r.value| == 3 + total + 1
            && r.value[0] == 0x55 && r.value[1] == 0xAA
            && r.value[2] == total
            && r.value[3..3 + |full|] == full
            && r.value[3 + |full|..3 + total] == content
            && r.value[3 + total] == Sum(r.value[..3 + total]) % 256
  {
    var full := WidenCode(code);
    var total := |full| + |content|;
    SmallLengthWidth(total);
    assert BigEndian(total, 1) == [total];
    var body := HEAD + [total] + full + content;
    var frame := body + [Sum(body) % 256];
    assert GenerateCommand(code, content) == Success(frame);
    assert frame[3..3 + |full|] == full;
    assert frame[3 + |full|..3 + total] == content;
    assert frame[..3 + total] == body;
  }

  /** Between 256 and 4095 bytes the length takes three hex digits and the
      encoder raises. */
  lemma ThreeDigitLengthFails(code: seq<byte>, content: seq<byte>)
    requires 256 <= |WidenCode(code)| + |content| < 4096
    ensures GenerateCommand(code, content) == Failure(OddLengthField(|WidenCode(code)| + |content|))
  {
    var total := |WidenCode(code)| + |content|;
    assert HexDigits(total / 16 / 16) == 1;
    assert HexDigits(total) == 3;
  }

  // ---------------------------------------------------------------------
  // Inbound side.

  /** What the notification handler extracts from an accepted frame: the
      store key (payload[0], payload[1]), the payload window and its data part. */
  datatype Notification = Notification(key: (byte, byte), payload: seq<byte>, data: seq<byte>)

  /** `data[3:3+length]`: the declared window, truncated to the buffer. */
  function Window(data: seq<byte>): (w: seq<byte>)
    requires |data| >= 3
  {
    if 3 + data[2] <= |data| then data[3..3 + data[2]] else data[3..]
  }

  /** The parse in `notification_handler`: header check, length byte, window,
      and a window of at least two bytes. The checksum is not examined. */
  function ParseNotification(data: seq<byte>): Option<Notification>
  {
    if |data| >= 3 && data[0] == 0x55 && data[1] == 0xAA then
      var payload := Window(data);
      if |payload| >= 2 then
        Some(Notification((payload[0], payload[1]), payload, payload[2..]))
      else
        None
    else
      None
  }

  /** A notification is accepted exactly when it has at least three bytes,
      starts 55 AA and the (truncated) window holds two bytes or more. */
  lemma AcceptedIff(data: seq<byte>)
    ensures ParseNotification(data).Some? <==>
            (|data| >= 3 && data[0] == 0x55 && data[1] == 0xAA && data[2] >= 2 && |data| >= 5)
  {
  }

  /** What an accepted notification yields: the window, its first two bytes as
      the key, and the window minus those two bytes as data. */
  lemma AcceptedFields(data: seq<byte>)
    requires ParseNotification(data).Some?
    ensures var n := ParseNotification(data).value;
            && n.payload == data[3..3 + |n.payload|]
            && |n.payload| == (if 3 + data[2] <= |data| then data[2] else |data| - 3)
            && n.key == (n.payload[0], n.payload[1])
            && n.payload == [n.key.0, n.key.1] + n.data
  {
    var n := ParseNotification(data).value;
    assert n.payload == [n.payload[0], n.payload[1]] + n.payload[2..];
  }

  /** A declared length that runs past the buffer is not rejected: the window
      is everything after the length byte. */
  lemma OverlongLengthTruncated(data: seq<byte>)
    requires |data| >= 5 && data[0] == 0x55 && data[1] == 0xAA
    requires 3 + data[2] > |data|
    ensures ParseNotification(data).Some?
    ensures ParseNotification(data).value.payload == data[3..]
  {
  }

  /** Nothing past the window is read: the checksum position, or any trailing
      byte, can be anything. */
  lemma TrailerIgnored(data: seq<byte>, other: seq<byte>)
    requires |data| >= 3 && |other| == |data|
    requires 3 + data[2] <= |data|
    requires data[..3 + data[2]] == other[..3 + data[2]]
    ensures ParseNotification(data) == ParseNotification(other)
  {
    assert data[..3] == other[..3];
    assert data[0] == other[0] && data[1] == other[1] && data[2] == other[2];
    assert data[3..3 + data[2]] == other[3..3 + data[2]] by {
      assert data[3..3 + data[2]] == data[..3 + data[2]][3..];
      assert other[3..3 + data[2]] == other[..3 + data[2]][3..];
    }
  }

  /** Round trip: a frame built by the encoder, fed back to the notification
      parser, is accepted under the key (CMD'[0], CMD'[1]) or, for an empty
      code, the first two content bytes; the payload is CMD' ++ content (the
      checksum lies outside the window) and the data is that payload minus its
      first two bytes. */
  lemma {:induction false} RoundTrip(code: seq<byte>, content: seq<byte>)
    requires 2 <= |WidenCode(code)| + |content| < 256
    ensures GenerateCommand(code, content).Success?
    ensures var payload := WidenCode(code) + content;
            ParseNotification(GenerateCommand(code, content).value)
              == Some(Notification((payload[0], payload[1]), payload, payload[2..]))
  {
    GeneratedLayout(code, content);
    var full := WidenCode(code);
    var frame := GenerateCommand(code, content).value;
    var total := |full| + |content|;
    assert Window(frame) == frame[3..3 + total];
    assert frame[3..3 + total] == full + content by {
      assert frame[3..3 + total] == frame[3..3 + |full|] + frame[3 + |full|..3 + total];
    }
  }

  /** With a non-empty code the key is the widened command itself. */
  lemma RoundTripKey(code: seq<byte>, content: seq<byte>)
    requires 1 <= |code| && |WidenCode(code)| + |content| < 256
    ensures GenerateCommand(code, content).Success?
    ensures var full := WidenCode(code);
            ParseNotification(GenerateCommand(code, content).value).Some?
            && ParseNotification(GenerateCommand(code, content).value).value.key == (full[0], full[1])
  {
    RoundTrip(code, content);
  }
}
