/** The string operations the core applies: ASCII decoding with errors
    ignored, `str.strip()`, `str.lower()`, `str.title()`, `str.replace` of one
    character, and the substring test `sub in s`. Only ASCII text reaches
    them, so each is modelled over ASCII. */
module Text {
  import opened Bytes

  /** Python's whitespace among the ASCII characters: \t \n \x0b \x0c \r,
      \x1c to \x1f and the space. */
  predicate IsSpace(c: char)
  {
    var n := c as int;
    n == 32 || (9 <= n <= 13) || (28 <= n <= 31)
  }

  // ---------------------------------------------------------------------
  // bytes.decode('ascii', errors='ignore')

  /** Every byte below 0x80 becomes its character; every other byte is dropped. */
  function DecodeAscii(b: seq<byte>): (s: string)
    ensures |s| <= |b|
    ensures forall i :: 0 <= i < |s| ==> s[i] as int < 128
  {
    if b == [] then ""
    else if b[0] < 128 then [b[0] as char] + DecodeAscii(b[1..])
    else DecodeAscii(b[1..])
  }

  /** Pure ASCII input decodes character for character. */
  lemma {:induction false} DecodeAsciiExact(b: seq<byte>)
    requires forall i :: 0 <= i < |b| ==> b[i] < 128
    ensures |DecodeAscii(b)| == |b|
    ensures forall i :: 0 <= i < |b| ==> DecodeAscii(b)[i] as int == b[i]
  {
    if b != [] {
      DecodeAsciiExact(b[1..]);
    }
  }

  /** Decoding distributes over concatenation: each byte is kept or dropped on its own. */
  lemma {:induction false} DecodeAsciiAppend(a: seq<byte>, b: seq<byte>)
    ensures DecodeAscii(a + b) == DecodeAscii(a) + DecodeAscii(b)
  {
    if a == [] {
      assert a + b == b;
    } else {
      assert (a + b)[1..] == a[1..] + b;
      DecodeAsciiAppend(a[1..], b);
    }
  }

  /** A byte of 0x80 or above contributes nothing. */
  lemma DecodeAsciiDropsHigh(a: seq<byte>, x: byte, b: seq<byte>)
    requires x >= 128
    ensures DecodeAscii(a + [x] + b) == DecodeAscii(a + b)
  {
    DecodeAsciiAppend(a + [x], b);
    DecodeAsciiAppend(a, [x]);
    DecodeAsciiAppend(a, b);
  }

  // ---------------------------------------------------------------------
  // str.strip()

  /** The first index from i on that holds no whitespace, |s| if there is none. */
  function SkipSpaces(s: string, i: nat): (n: nat)
    requires i <= |s|
    ensures i <= n <= |s|
    ensures forall k :: i <= k < n ==> IsSpace(s[k])
    ensures n < |s| ==> !IsSpace(s[n])
    decreases |s| - i
  {
    if i == |s| || !IsSpace(s[i]) then i else SkipSpaces(s, i + 1)
  }

  /** Index of the first non-whitespace character, |s| if there is none. */
  function LeadingSpaceCount(s: string): (n: nat)
    ensures n <= |s|
    ensures forall k :: 0 <= k < n ==> IsSpace(s[k])
    ensures n < |s| ==> !IsSpace(s[n])
  {
    SkipSpaces(s, 0)
  }

  /** The index where the run of whitespace ending at j starts. */
  function BackOverSpaces(s: string, j: nat): (n: nat)
    requires j <= |s|
    ensures n <= j
    ensures forall k :: n <= k < j ==> IsSpace(s[k])
    ensures n > 0 ==> !IsSpace(s[n - 1])
  {
    if j == 0 || !IsSpace(s[j - 1]) then j else BackOverSpaces(s, j - 1)
  }

  /** Index just past the last non-whitespace character, 0 if there is none. */
  function TrailingSpaceStart(s: string): (n: nat)
    ensures n <= |s|
    ensures forall k :: n <= k < |s| ==> IsSpace(s[k])
    ensures n > 0 ==> !IsSpace(s[n - 1])
  {
    BackOverSpaces(s, |s|)
  }

  /** `s.strip()`: whitespace removed from both ends. */
  function Strip(s: string): (r: string)
  {
    var lo := LeadingSpaceCount(s);
    if lo == |s| then "" else s[lo..TrailingSpaceStart(s)]
  }

  /** What strip promises: the result is a contiguous piece of the input,
      everything cut off is whitespace, and the result neither starts nor ends
      with whitespace. */
  lemma StripSpec(s: string)
    ensures var r := Strip(s);
            var lo := LeadingSpaceCount(s);
            && lo + |r| <= |s|
            && r == s[lo..lo + |r|]
            && (forall k :: 0 <= k < lo ==> IsSpace(s[k]))
            && (forall k :: lo + |r| <= k < |s| ==> IsSpace(s[k]))
            && (|r| > 0 ==> !IsSpace(r[0]) && !IsSpace(r[|r| - 1]))
  {
    var lo := LeadingSpaceCount(s);
    var hi := TrailingSpaceStart(s);
    TrimmedSlice(s, lo, hi);
  }

  /** The slice between the leading and the trailing whitespace, given only
      what bounds them. */
  lemma TrimmedSlice(s: string, lo: nat, hi: nat)
    requires lo <= |s| && hi <= |s|
    requires forall k :: 0 <= k < lo ==> IsSpace(s[k])
    requires lo < |s| ==> !IsSpace(s[lo])
    requires forall k :: hi <= k < |s| ==> IsSpace(s[k])
    requires hi > 0 ==> !IsSpace(s[hi - 1])
    ensures lo < |s| ==> lo < hi
    ensures var r := if lo == |s| then "" else s[lo..hi];
            && lo + |r| <= |s|
            && r == s[lo..lo + |r|]
            && (forall k :: lo + |r| <= k < |s| ==> IsSpace(s[k]))
            && (|r| > 0 ==> !IsSpace(r[0]) && !IsSpace(r[|r| - 1]))
  {
    if lo < |s| {
      assert !IsSpace(s[lo]);
      var r := s[lo..hi];
      assert r[0] == s[lo] && r[|r| - 1] == s[hi - 1];
    }
  }

  /** A string that has no whitespace at either end is left alone. */
  lemma StripNoop(s: string)
    requires |s| > 0 ==> !IsSpace(s[0]) && !IsSpace(s[|s| - 1])
    ensures Strip(s) == s
  {
    if |s| > 0 {
      assert LeadingSpaceCount(s) == 0;
      assert TrailingSpaceStart(s) == |s|;
    }
  }

  /** Stripping twice is stripping once. */
  lemma StripIdempotent(s: string)
    ensures Strip(Strip(s)) == Strip(s)
  {
    StripSpec(s);
    StripNoop(Strip(s));
  }

  // ---------------------------------------------------------------------
  // str.lower(), str.title(), str.replace(c, d)

  predicate IsUpper(c: char) { 'A' <= c <= 'Z' }
  predicate IsLower(c: char) { 'a' <= c <= 'z' }

  function ToLowerChar(c: char): (d: char)
    ensures !IsUpper(d)
  {
    if IsUpper(c) then (c as int + 32) as char else c
  }

  function ToUpperChar(c: char): (d: char)
    ensures !IsLower(d)
  {
    if IsLower(c) then (c as int - 32) as char else c
  }

  /** `s.lower()` over ASCII. */
  function Lower(s: string): (r: string)
    ensures |r| == |s|
    ensures forall i :: 0 <= i < |s| ==> r[i] == ToLowerChar(s[i])
  {
    if s == [] then "" else [ToLowerChar(s[0])] + Lower(s[1..])
  }

  /** Lowercasing is idempotent. */
  lemma LowerIdempotent(s: string)
    ensures Lower(Lower(s)) == Lower(s)
  {
  }

  /** `s.title()` over ASCII: a letter is uppercased when the character before
      it is not a letter (or it is the first), lowercased otherwise; other
      characters are kept. */
  function Title(s: string): (r: string)
  {
    TitleAfter(s, false)
  }

  function TitleAfter(s: string, previousCased: bool): (r: string)
    ensures |r| == |s|
  {
    if s == [] then ""
    else
      var c := s[0];
      var cased := IsUpper(c) || IsLower(c);
      [if previousCased then ToLowerChar(c) else ToUpperChar(c)] + TitleAfter(s[1..], cased)
  }

  /** Title case of one lowercase word: its first letter goes up, the rest are kept. */
  lemma {:induction false} TitleOfLowerWord(w: string)
    requires |w| > 0 && forall i :: 0 <= i < |w| ==> IsLower(w[i])
    ensures Title(w) == [ToUpperChar(w[0])] + w[1..]
  {
    LowerRunUnchanged(w[1..]);
  }

  lemma {:induction false} LowerRunUnchanged(w: string)
    requires forall i :: 0 <= i < |w| ==> IsLower(w[i])
    ensures TitleAfter(w, true) == w
  {
    if w != [] {
      LowerRunUnchanged(w[1..]);
    }
  }

  /** `s.replace(a, b)` for single characters. */
  function ReplaceChar(s: string, a: char, b: char): (r: string)
    ensures |r| == |s|
    ensures forall i :: 0 <= i < |s| ==> r[i] == (if s[i] == a then b else s[i])
  {
    if s == [] then "" else [if s[0] == a then b else s[0]] + ReplaceChar(s[1..], a, b)
  }

  // ---------------------------------------------------------------------
  // `sub in s`

  predicate StartsWith(s: string, p: string)
  {
    |p| <= |s| && s[..|p|] == p
  }

  /** `p in s`: p occurs in s at some offset. */
  predicate Contains(s: string, p: string)
    decreases |s|
  {
    StartsWith(s, p) || (|s| > 0 && Contains(s[1..], p))
  }

  /** p occurs in s starting at offset i. */
  predicate OccursAt(s: string, p: string, i: int)
  {
    0 <= i <= |s| - |p| && s[i..i + |p|] == p
  }

  /** Contains means an occurrence at some offset. */
  lemma {:induction false} ContainsIff(s: string, p: string)
    ensures Contains(s, p) <==> exists i :: OccursAt(s, p, i)
  {
    if Contains(s, p) {
      if StartsWith(s, p) {
        assert OccursAt(s, p, 0);
      } else {
        ContainsIff(s[1..], p);
        var i :| OccursAt(s[1..], p, i);
        assert s[1..][i..i + |p|] == s[i + 1..i + 1 + |p|];
        assert OccursAt(s, p, i + 1);
      }
    }
    if exists i :: OccursAt(s, p, i) {
      var i :| OccursAt(s, p, i);
      if i > 0 {
        assert s[1..][i - 1..i - 1 + |p|] == s[i..i + |p|];
        assert OccursAt(s[1..], p, i - 1);
        ContainsIff(s[1..], p);
      }
    }
  }
}
