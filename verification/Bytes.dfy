/** Bytes of the serial and TCP streams. */
module Bytes {

  type byte = b: int | 0 <= b < 256

  const LF: byte := 10
  const CR: byte := 13

  /** Position of the first line feed, or the length. */
  function FindLf(s: seq<byte>): (n: nat)
    ensures n <= |s| && LF !in s[..n]
    ensures n < |s| ==> s[n] == LF
  {
    if s == [] || s[0] == LF then 0
    else
      assert s[..1 + FindLf(s[1..])] == [s[0]] + s[1..][..FindLf(s[1..])];
      1 + FindLf(s[1..])
  }

  lemma FindLfIn(s: seq<byte>, n: nat)
    requires n < |s| && s[n] == LF && LF !in s[..n]
    ensures FindLf(s) == n
  {
  }
}
