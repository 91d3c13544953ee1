/** Bytes, byte sums and the lowercase hex rendering that Python's bytes.hex() produces. */
module Bytes {

  /** One octet, as Python's `bytes` indexing yields it. */
  type byte = x: int | 0 <= x < 256

  /** Sum of all bytes, as Python's `sum(bytes)`. */
  function Sum(s: seq<byte>): nat
  {
    if s == [] then 0 else Sum(s[..|s| - 1]) + s[|s| - 1]
  }

  lemma {:induction false} SumAppend(s: seq<byte>, t: seq<byte>)
    ensures Sum(s + t) == Sum(s) + Sum(t)
    decreases |t|
  {
    if t == [] {
      assert s + t == s;
    } else {
      var last := |t| - 1;
      assert (s + t)[..|s + t| - 1] == s + t[..last];
      SumAppend(s, t[..last]);
    }
  }

  /** Big-endian value of two bytes, as `int.from_bytes(b[0:2], 'big')`. */
  function BigEndian16(hi: byte, lo: byte): (r: nat)
    ensures r < 65536
    ensures r / 256 == hi && r % 256 == lo
  {
    hi * 256 + lo
  }

  /** The lowercase hex digit of a nibble. */
  function HexDigit(d: int): (c: char)
    requires 0 <= d < 16
    ensures ('0' <= c <= '9') || ('a' <= c <= 'f')
  {
    if d < 10 then ('0' as int + d) as char else ('a' as int + d - 10) as char
  }

  /** Two lowercase hex characters for one byte, as f"{b:02x}". */
  function ByteHex(b: byte): (r: string)
    ensures |r| == 2
  {
    [HexDigit(b / 16), HexDigit(b % 16)]
  }

  /** The rendering of Python's `bytes.hex()`. */
  function Hex(s: seq<byte>): (r: string)
    ensures |r| == 2 * |s|
  {
    if s == [] then "" else ByteHex(s[0]) + Hex(s[1..])
  }

  lemma HexDigitInjective(a: int, b: int)
    requires 0 <= a < 16 && 0 <= b < 16
    requires HexDigit(a) == HexDigit(b)
    ensures a == b
  {
  }

  lemma ByteHexInjective(a: byte, b: byte)
    requires ByteHex(a) == ByteHex(b)
    ensures a == b
  {
    assert ByteHex(a)[0] == ByteHex(b)[0] && ByteHex(a)[1] == ByteHex(b)[1];
    HexDigitInjective(a / 16, b / 16);
    HexDigitInjective(a % 16, b % 16);
  }

  /** Distinct byte strings have distinct hex renderings; in particular the
      four-character response-store key f"{p0:02x}{p1:02x}" determines the pair
      (p0, p1), so the store may be keyed by the pair itself. */
  lemma {:induction false} HexInjective(s: seq<byte>, t: seq<byte>)
    requires Hex(s) == Hex(t)
    ensures s == t
  {
    if s != [] {
      assert t != [];
      assert Hex(s)[..2] == ByteHex(s[0]) && Hex(t)[..2] == ByteHex(t[0]);
      ByteHexInjective(s[0], t[0]);
      assert Hex(s)[2..] == Hex(s[1..]) && Hex(t)[2..] == Hex(t[1..]);
      HexInjective(s[1..], t[1..]);
      assert s == [s[0]] + s[1..] && t == [t[0]] + t[1..];
    }
  }

  /** The hex string of a response key is the string the source looks keys up by. */
  lemma KeyHexExamples()
    ensures Hex([0x80, 0x02]) == "8002" && Hex([0x80, 0x01]) == "8001"
    ensures Hex([0x80, 0x83]) == "8083" && Hex([0x80, 0x0b]) == "800b"
    ensures Hex([0x80, 0x07]) == "8007" && Hex([0x80, 0x70]) == "8070"
    ensures Hex([0x80, 0x15]) == "8015" && Hex([0x80, 0x81]) == "8081"
  {
  }
}
