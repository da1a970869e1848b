/** Lines as the bytes that are written: UTF-8, section 3 of RFC 3629. */
module Utf8 {
  import opened Bytes
  import opened StreamerModel

  function EncodeChar(c: char): (bytes: seq<byte>)
    ensures bytes != []
  {
    var n := c as int;
    if n < 0x80 then [n]
    else if n < 0x800 then [0xC0 + n / 64, 0x80 + n % 64]
    else if n < 0x10000 then [0xE0 + n / 4096, 0x80 + n / 64 % 64, 0x80 + n % 64]
    else [0xF0 + n / 262144, 0x80 + n / 4096 % 64, 0x80 + n / 64 % 64, 0x80 + n % 64]
  }

  /** str.encode() */
  function Encode(s: string): seq<byte> {
    if s == [] then [] else EncodeChar(s[0]) + Encode(s[1..])
  }

  /** Bytes of the sequence that a leading byte announces. */
  function Announced(b: byte): nat {
    if b < 0x80 then 1 else if b < 0xE0 then 2 else if b < 0xF0 then 3 else 4
  }

  /** The code points of well-formed bytes. */
  function Decode(bytes: seq<byte>): seq<int>
    decreases |bytes|
  {
    if bytes == [] || |bytes| < Announced(bytes[0]) then []
    else [CodePoint(bytes[..Announced(bytes[0])])] + Decode(bytes[Announced(bytes[0])..])
  }

  function CodePoint(b: seq<byte>): int
    requires 1 <= |b| <= 4
  {
    if |b| == 1 then b[0]
    else if |b| == 2 then Shifted(b[0] as int - 0xC0, b[1])
    else if |b| == 3 then Shifted(Shifted(b[0] as int - 0xE0, b[1]), b[2])
    else Shifted(Shifted(Shifted(b[0] as int - 0xF0, b[1]), b[2]), b[3])
  }

  /** Six bits more, from a continuation byte. */
  function Shifted(high: int, b: byte): int {
    high * 64 + (b as int - 0x80)
  }

  lemma ShiftedBack(n: nat)
    ensures Shifted(n / 64, 0x80 + n % 64) == n
    ensures n / 64 / 64 == n / 4096 && n / 64 / 64 / 64 == n / 262144
  {
  }

  lemma CharReadsBack(c: char)
    ensures var b := EncodeChar(c); |b| == Announced(b[0]) == Utf8Width(c) && CodePoint(b) == c as int
  {
    hide Shifted;
    var n := c as int;
    ShiftedBack(n);
    ShiftedBack(n / 64);
    ShiftedBack(n / 4096);
  }

  lemma {:induction false} LengthIs(s: string)
    ensures |Encode(s)| == Utf8Length(s)
  {
    hide EncodeChar;
    if s == [] {
    } else {
      CharReadsBack(s[0]);
      LengthIs(s[1..]);
    }
  }

  /** What a line is counted as in the window is what its write puts on the wire, and those bytes read
      back as the line. */
  lemma LineBytesAreWritten(line: string)
    ensures LineBytes(line) == |Encode(line + "\n")|
    ensures Decode(Encode(line)) == seq(|line|, i requires 0 <= i < |line| => line[i] as int)
  {
    LengthIs(line + "\n");
    LengthAppends(line);
    ReadsBack(line);
  }

  lemma {:induction false} LengthAppends(line: string)
    ensures Utf8Length(line + "\n") == Utf8Length(line) + 1
  {
    if line == [] {
      assert line + "\n" == "\n" && "\n"[1..] == "";
    } else {
      assert (line + "\n")[1..] == line[1..] + "\n";
      LengthAppends(line[1..]);
    }
  }

  lemma {:induction false} ReadsBack(s: string)
    ensures Decode(Encode(s)) == seq(|s|, i requires 0 <= i < |s| => s[i] as int)
  {
    hide EncodeChar, CodePoint, Announced;
    if s == [] {
    } else {
      var b, rest := EncodeChar(s[0]), Encode(s[1..]);
      CharReadsBack(s[0]);
      assert (b + rest)[..|b|] == b && (b + rest)[|b|..] == rest;
      ReadsBack(s[1..]);
    }
  }
}
