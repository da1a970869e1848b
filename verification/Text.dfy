/** The string operations the proxy relies on, over ASCII text. */
module Text {

  /** What str.strip() and str.split() take as white space. */
  predicate IsSpace(c: char) {
    9 <= c as int <= 13 || 28 <= c as int <= 32
  }

  predicate IsDigit(c: char) {
    '0' <= c <= '9'
  }

  predicate IsUpper(c: char) {
    'A' <= c <= 'Z'
  }

  predicate IsLower(c: char) {
    'a' <= c <= 'z'
  }

  function UpperChar(c: char): char {
    if IsLower(c) then (c as int - 32) as char else c
  }

  function Upper(s: string): (u: string)
    ensures |u| == |s|
    ensures forall i :: 0 <= i < |s| ==> u[i] == UpperChar(s[i])
  {
    seq(|s|, i requires 0 <= i < |s| => UpperChar(s[i]))
  }

  function Lstrip(s: string): string {
    if s != [] && IsSpace(s[0]) then Lstrip(s[1..]) else s
  }

  function Rstrip(s: string): string {
    if s != [] && IsSpace(s[|s| - 1]) then Rstrip(s[..|s| - 1]) else s
  }

  function Strip(s: string): string {
    Rstrip(Lstrip(s))
  }

  predicate IsSuffix<T(==)>(p: seq<T>, s: seq<T>) {
    |p| <= |s| && s[|s| - |p|..] == p
  }

  predicate Blank(s: string) {
    forall i :: 0 <= i < |s| ==> IsSpace(s[i])
  }

  /** Neither the first nor the last character is white space. */
  predicate Trimmed(s: string) {
    s == [] || (!IsSpace(s[0]) && !IsSpace(s[|s| - 1]))
  }

  /** The white-space separated words of a string. */
  function Words(s: string): (ws: seq<string>)
    decreases |s|
  {
    if s == [] then []
    else if IsSpace(s[0]) then Words(s[1..])
    else [s[..WordLength(s)]] + Words(s[WordLength(s)..])
  }

  /** Length of the run of non-space characters a string begins with. */
  function WordLength(s: string): (n: nat)
    ensures n <= |s|
    ensures s != [] && !IsSpace(s[0]) ==> n > 0
    ensures forall i :: 0 <= i < n ==> !IsSpace(s[i])
    ensures n < |s| ==> IsSpace(s[n])
  {
    if s == [] || IsSpace(s[0]) then 0 else 1 + WordLength(s[1..])
  }

  function JoinWords(ws: seq<string>): string {
    if ws == [] then "" else if |ws| == 1 then ws[0] else ws[0] + " " + JoinWords(ws[1..])
  }

  // ----- Facts -----------------------------------------------------------------------------

  lemma LstripTrimmed(s: string)
    requires s == [] || !IsSpace(s[0])
    ensures Lstrip(s) == s
  {
  }

  lemma {:induction false} LstripTrims(s: string)
    ensures Lstrip(s) == [] || !IsSpace(Lstrip(s)[0])
    ensures IsSuffix(Lstrip(s), s)
    ensures Lstrip(s) == [] <==> Blank(s)
  {
    if s == [] || !IsSpace(s[0]) {
    } else {
      LstripTrims(s[1..]);
      assert forall i :: 1 <= i < |s| ==> s[i] == s[1..][i - 1];
    }
  }

  lemma {:induction false} LstripSkips(t: string)
    ensures |Lstrip(t)| <= |t| && forall i :: 0 <= i < |t| - |Lstrip(t)| ==> IsSpace(t[i])
    ensures Lstrip(t) == t[|t| - |Lstrip(t)|..]
  {
    if t == [] || !IsSpace(t[0]) {
    } else {
      LstripSkips(t[1..]);
    }
  }

  lemma BlankStart(t: string)
    ensures |Lstrip(t)| <= |t|
    ensures var gap := t[..|t| - |Lstrip(t)|]; Blank(gap) && t == gap + Lstrip(t)
  {
    hide Lstrip;
    LstripSkips(t);
  }

  lemma {:induction false} RstripTrims(s: string)
    ensures Rstrip(s) <= s
    ensures Rstrip(s) == [] || !IsSpace(Rstrip(s)[|Rstrip(s)| - 1])
    ensures Rstrip(s) == [] <==> Blank(s)
  {
    if s == [] || !IsSpace(s[|s| - 1]) {
    } else {
      RstripTrims(s[..|s| - 1]);
    }
  }

  lemma {:induction false} LstripGap(gap: string, rest: string)
    requires Blank(gap) && (rest == [] || !IsSpace(rest[0]))
    ensures Lstrip(gap + rest) == rest
  {
    if gap == [] {
      assert gap + rest == rest;
    } else {
      LstripGap(gap[1..], rest);
      assert (gap + rest)[1..] == gap[1..] + rest;
    }
  }

  lemma {:induction false} RstripIs(s: string, k: nat)
    requires k <= |s| && Blank(s[k..]) && (k == 0 || !IsSpace(s[k - 1]))
    ensures Rstrip(s) == s[..k]
    decreases |s|
  {
    if k == |s| {
    } else {
      assert IsSpace(s[|s| - 1]) by { assert s[k..][|s| - k - 1] == s[|s| - 1]; }
      var u := s[..|s| - 1];
      assert forall i :: 0 <= i < |u| - k ==> u[k..][i] == s[k..][i];
      RstripIs(u, k);
      assert u[..k] == s[..k];
    }
  }

  lemma {:induction false} RstripLeaves(s: string)
    ensures Rstrip(s) <= s && Blank(s[|Rstrip(s)|..])
  {
    if s == [] || !IsSpace(s[|s| - 1]) {
    } else {
      var u := s[..|s| - 1];
      RstripLeaves(u);
      assert s[|Rstrip(s)|..] == u[|Rstrip(s)|..] + [s[|s| - 1]];
    }
  }

  /** strip() trims, and gives nothing exactly for blank strings. */
  lemma StripTrims(s: string)
    ensures Trimmed(Strip(s))
    ensures Strip(s) == [] <==> Blank(s)
    ensures |Strip(s)| <= |s|
  {
    LstripTrims(s);
    RstripTrims(Lstrip(s));
  }

  lemma StripTrimmed(s: string)
    requires Trimmed(s)
    ensures Strip(s) == s
  {
  }

  lemma StripTwice(s: string)
    ensures Strip(Strip(s)) == Strip(s)
  {
    StripTrims(s);
    StripTrimmed(Strip(s));
  }
}
