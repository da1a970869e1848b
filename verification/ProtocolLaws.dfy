/** What splitting a serial line promises: it loses no fault, status or acknowledgement and invents
    none. */
module ProtocolLaws {
  import opened Options
  import opened Text
  import opened Decimals
  import opened GrblMessages
  import opened GrblProtocol
  import opened MessageLaws

  // ----- Tokens ----------------------------------------------------------------------------

  lemma {:induction false} LstripPrefix(t: string, k: nat)
    requires |t| - |Lstrip(t)| < k <= |t|
    ensures |Lstrip(t)| <= |t| && Lstrip(t[..k]) == Lstrip(t)[..k - (|t| - |Lstrip(t)|)]
  {
    LstripTrims(t);
    if !IsSpace(t[0]) {
    } else {
      assert t[..k][1..] == t[1..][..k - 1];
      LstripTrims(t[1..]);
      LstripPrefix(t[1..], k - 1);
    }
  }

  lemma {:induction false} RunPrefix(r: string, j: nat)
    requires DigitRun(r) <= j <= |r|
    ensures DigitRun(r[..j]) == DigitRun(r)
  {
    if j == 0 || !IsDigit(r[0]) {
    } else {
      assert r[..j][1..] == r[1..][..j - 1];
      RunPrefix(r[1..], j - 1);
    }
  }

  predicate IsFaultToken(m: string) {
    m != [] && Trimmed(m) && m[0] != '[' && m != "ok" && (IsError(m) || ExactAlarm(m))
  }

  /** A number with an optional period, after spaces, cut right behind it. */
  lemma NumberCut(t: string, k: nat)
    requires var r := Lstrip(t); var n := DigitRun(r);
             && n > 0 && |t| - |r| + n <= k <= |t|
             && (k == |t| - |r| + n || (k == |t| - |r| + n + 1 && r[n] == '.'))
    ensures var r := Lstrip(t[..k]); var n := DigitRun(r);
            n > 0 && r[n..] in ["", "."] && !IsSpace(t[k - 1])
  {
    hide DigitRun, Lstrip;
    var r := Lstrip(t);
    LstripSkips(t);
    var n, j := DigitRun(r), k - (|t| - |r|);
    LstripPrefix(t, k);
    RunPrefix(r, j);
    assert t[k - 1] == r[j - 1];
    if j == n {
      assert r[..j][n..] == "";
      assert IsDigit(r[..n][n - 1]);
    } else {
      assert r[..j][n..] == ".";
    }
  }

  lemma ErrorToken(s: string)
    requires FaultLength(s) > 0 && |s| >= 6 && Upper(s[..6]) == "ERROR:"
    ensures IsFaultToken(s[..FaultLength(s)])
  {
    hide DigitRun, Lstrip, Strip;
    var k := FaultLength(s);
    var m := s[..k];
    var t := s[6..];
    LstripSkips(t);
    NumberCut(t, k - 6);
    assert m[..6] == s[..6] && m[6..] == t[..k - 6];
    assert UpperChar(m[0]) == 'E' by { assert Upper(s[..6])[0] == UpperChar(s[0]); }
    assert m[k - 1] == t[k - 7];
    StripTrimmed(m);
    LstripTrimmed(if Lstrip(m[6..])[DigitRun(Lstrip(m[6..]))..] == "" then "" else ".");
  }

  lemma AlarmToken(s: string)
    requires FaultLength(s) > 0 && !(|s| >= 6 && Upper(s[..6]) == "ERROR:")
    ensures IsFaultToken(s[..FaultLength(s)])
  {
    var k := FaultLength(s);
    var m := s[..k];
    assert m[6..] == s[6..][..DigitRun(s[6..])];
    assert m[0] == 'A' && m[k - 1] == m[6..][k - 7];
  }

  /** A fault token is, on its own, a clean fault message. */
  lemma FaultToken(s: string)
    requires FaultLength(s) > 0
    ensures IsFaultToken(s[..FaultLength(s)])
  {
    if |s| >= 6 && Upper(s[..6]) == "ERROR:" { ErrorToken(s); } else { AlarmToken(s); }
  }

  /** The fault token a text begins with is, on its own, taken for what it says: an alarm with its
      number, a vendor fault when the word is in capitals, an error with its number otherwise. */
  lemma FaultTokenClassifies(t: string, n: nat)
    requires n > 0 && BeginsFault(t, n)
    ensures n <= |t| && var m := t[..n]; var c := Classify(m);
            if BeginsAlarm(t, n) then AllDigits(m[6..]) && c == AlarmReply(Some(DecimalValue(m[6..])))
            else IsErrorText(m) && Says(m, c) && if m[..5] == "ERROR" then c == VendorFault(m) else c.ErrorReply?
  {
    hide FaultLength, Strip, BeginsError, IsErrorText, ErrorDigits;
    FaultsByText(t, n);
    FaultToken(t);
    var m := t[..n];
    StripTrimmed(m);
    if BeginsAlarm(t, n) {
      assert m[6..] == t[6..n] && m[..6] == t[..6];
      DigitsParse(m[6..]);
      ClassifiedByText(m, AlarmReply(Some(DecimalValue(m[6..]))));
    } else {
      assert !ExactAlarm(m) by { NoAlarm(t, n); }
      ErrorTexts(m);
      ErrorIsSaid(m);
    }
  }

  lemma NoAlarm(t: string, n: nat)
    requires FaultLength(t) == n > 0 && !BeginsAlarm(t, n)
    ensures !ExactAlarm(t[..n])
  {
    hide FaultLength;
    var m := t[..n];
    if ExactAlarm(m) {
      FaultsByText(t, n);
      ErrorBeginning(t, n);
      assert false;
    }
  }

  lemma ErrorBeginning(t: string, n: nat)
    requires BeginsError(t, n)
    ensures 6 <= n <= |t| && t[5] == ':' && UpperChar(t[0]) == 'E'
  {
    var head, gap, digits, rest :|
      TokenParts(t, head, gap, digits, rest) && n == |head| + |gap| + |digits| + PeriodLength(rest);
    assert t[..6] == head && t[5] == head[5] && t[0] == head[0];
  }

  lemma ErrorIsSaid(m: string)
    requires IsErrorText(m) && Strip(m) == m
    ensures var c := Classify(m); Says(m, c) && if m[..5] == "ERROR" then c == VendorFault(m) else c.ErrorReply?
  {
    hide Classify, SpellsError, Strip;
    ErrorStart(m);
    if m[..5] == "ERROR" {
      ClassifiedByText(m, VendorFault(m));
    } else {
      var digits :| SpellsError(m, digits);
      SpelledDigits(m, digits);
      ClassifiedByText(m, ErrorReply(DecimalValue(digits)));
    }
  }

  lemma SpelledDigits(m: string, digits: string)
    requires SpellsError(m, digits)
    ensures AllDigits(digits)
  {
  }

  lemma {:induction false} FaultsAreTokens(s: string)
    ensures forall m :: m in Faults(s) ==> IsFaultToken(m)
    decreases |s|
  {
    if s == [] {
    } else {
      if FaultLength(s) > 0 {
        FaultToken(s);
        FaultsAreTokens(s[FaultLength(s)..]);
      } else {
        FaultsAreTokens(s[1..]);
      }
    }
  }

  predicate IsBlock(m: string) {
    |m| >= 2 && m[0] == '<' && m[|m| - 1] == '>'
  }

  lemma {:induction false} BlocksAreBlocks(s: string)
    ensures forall m :: m in Blocks(s) ==> IsBlock(m)
    decreases |s|
  {
    if s == [] {
    } else {
      if BlockLength(s) > 0 {
        BlocksAreBlocks(s[BlockLength(s)..]);
      } else {
        BlocksAreBlocks(s[1..]);
      }
    }
  }

  // ----- Splitting -------------------------------------------------------------------------

  lemma CleanAlone(m: string)
    requires m != [] && Trimmed(m) && Clean(m)
    ensures SplitResponses(m) == [m]
  {
    StripTrimmed(m);
  }

  /** One message and nothing else is handed on as it is. */
  lemma CleanStays(line: string)
    requires Strip(line) != "" && OneMessage(Strip(line))
    ensures SplitResponses(line) == [Strip(line)]
  {
    hide Strip, Clean, OneMessage, Recovered;
    StripTwice(line);
    CleanByText(Strip(line));
  }

  lemma PartsOfRecovered(s: string, m: string)
    requires m in Recovered(s)
    ensures m != [] && Trimmed(m) && Clean(m)
    ensures m == "ok" || IsBlock(m) || IsFaultToken(m)
  {
    BlocksAreBlocks(s);
    FaultsAreTokens(Blanked(s));
    assert m in Blocks(s) || m in Faults(Blanked(s)) || m == "ok";
    StripTrimmed(m);
  }

  /** Splitting again changes nothing. */
  lemma SplitTwice(line: string, m: string)
    requires m in SplitResponses(line)
    ensures SplitResponses(m) == [m]
  {
    var s := Strip(line);
    if Clean(s) || Recovered(s) == [] {
      StripTwice(line);
    } else {
      PartsOfRecovered(s, m);
      CleanAlone(m);
    }
  }

  /** An ok can only be the last message of a line, so a line never acknowledges twice. */
  lemma OneOkAtMost(line: string, i: nat)
    requires i < |SplitResponses(line)| && IsOk(SplitResponses(line)[i])
    ensures i == |SplitResponses(line)| - 1
  {
    var s := Strip(line);
    if !Clean(s) && Recovered(s) != [] && i < |Recovered(s)| - 1 {
      BlocksAreBlocks(s);
      FaultsAreTokens(Blanked(s));
      var m := Recovered(s)[i];
      assert m in Blocks(s) || m in Faults(Blanked(s));
      StripTrimmed(m);
      assert false;
    }
  }

  /** So one serial line hands the streamer one acknowledgement at most, as its last message. */
  lemma LineAcknowledgesOnce(line: string, i: nat)
    requires i < |MessagesOf(line)| && MessagesOf(line)[i] == Ok
    ensures i == |MessagesOf(line)| - 1
  {
    OneOkAtMost(line, i);
  }

  lemma {:induction false} NoBlocks(s: string)
    requires '>' !in s
    ensures Blocks(s) == [] && Blanked(s) == s
  {
    if s == [] {
    } else {
      NoBlocks(s[1..]);
    }
  }

  lemma UnclosedIsUnclean(s: string)
    requires "<" <= s && '>' !in s && Strip(s) == s
    ensures !Clean(s)
  {
    hide Strip, Lstrip, DigitRun, Upper;
    assert s[0] == '<' && "ok"[0] == 'o' && "ERROR:"[0] == 'E' && "ALARM:"[0] == 'A';
    assert !IsError(s) by { if |s| >= 6 { assert Upper(s[..6])[0] == '<'; } }
    assert !IsStatusReport(s) by { assert s[|s| - 1..][0] == s[|s| - 1]; }
  }

  /** Fault tokens at every position, with none skipped. */
  function FaultsEverywhere(s: string): seq<string> {
    if s == [] then []
    else (if FaultLength(s) > 0 then [s[..FaultLength(s)]] else []) + FaultsEverywhere(s[1..])
  }

  /** No fault token begins inside another. */
  lemma NoTokenInside(s: string, i: nat)
    requires 0 < i < FaultLength(s)
    ensures FaultLength(s[i..]) == 0
  {
    var t := s[i..];
    if FaultLength(t) > 0 {
      TokenStart(t);
      TokenInner(s, i);
      assert false;
    }
  }

  lemma TokenStart(t: string)
    requires FaultLength(t) > 0
    ensures UpperChar(t[0]) == 'E' || t[0] == 'A'
    ensures UpperChar(t[0]) == 'E' ==> Upper(t[..6])[1] == 'R'
    ensures t[0] == 'A' ==> t[1] == 'L'
  {
    if |t| >= 6 && Upper(t[..6]) == "ERROR:" { assert Upper(t[..6])[0] == UpperChar(t[0]); }
  }

  /** Past its first character a token has no E and no A followed by L. */
  lemma TokenInner(s: string, i: nat)
    requires 0 < i < FaultLength(s)
    ensures UpperChar(s[i]) != 'E'
    ensures s[i] == 'A' ==> i + 1 < |s| && s[i + 1] != 'L'
  {
    if |s| >= 6 && Upper(s[..6]) == "ERROR:" {
      ErrorInner(s, i);
    } else if i >= 6 {
      assert s[i] == s[6..][i - 6];
    }
  }

  lemma ErrorInner(s: string, i: nat)
    requires |s| >= 6 && Upper(s[..6]) == "ERROR:" && 0 < i < FaultLength(s)
    ensures UpperChar(s[i]) != 'E' && s[i] != 'A'
  {
    hide FaultLength, Lstrip, DigitRun, Upper;
    var t := s[6..];
    var r := Lstrip(t);
    LstripSkips(t);
    ErrorLength(s);
    if i < 6 {
      ErrorHead(s, i);
    } else if i - 6 < |t| - |r| {
      assert s[i] == t[i - 6];
    } else {
      var j := i - 6 - (|t| - |r|);
      assert s[i] == r[j];
      if j < DigitRun(r) { RunOfDigits(r, j); }
    }
  }

  lemma ErrorHead(s: string, i: nat)
    requires |s| >= 6 && Upper(s[..6]) == "ERROR:" && 0 < i < 6
    ensures UpperChar(s[i]) != 'E' && s[i] != 'A'
  {
    assert Upper(s[..6])[i] == UpperChar(s[i]);
  }

  lemma ErrorLength(s: string)
    requires |s| >= 6 && Upper(s[..6]) == "ERROR:"
    ensures var r := Lstrip(s[6..]); var n := DigitRun(r);
            && |r| <= |s| && FaultLength(s) <= |s| - |r| + n + 1
            && (FaultLength(s) == |s| - |r| + n + 1 ==> n < |r| && r[n] == '.')
  {
    hide Lstrip, DigitRun, Upper;
    LstripSkips(s[6..]);
  }

  lemma RunOfDigits(r: string, j: nat)
    requires j < DigitRun(r)
    ensures IsDigit(r[j])
  {
    hide DigitRun;
    assert r[..DigitRun(r)][j] == r[j];
  }

  lemma {:induction false} NothingUpTo(s: string, k: nat)
    requires k <= |s| && forall i :: 0 <= i < k ==> FaultLength(s[i..]) == 0
    ensures FaultsEverywhere(s) == FaultsEverywhere(s[k..])
  {
    if k == 0 {
    } else {
      assert s[0..] == s;
      assert forall i :: 0 <= i < k - 1 ==> s[1..][i..] == s[i + 1..];
      NothingUpTo(s[1..], k - 1);
      assert s[1..][k - 1..] == s[k..];
    }
  }

  /** Scanning with skips misses no fault token, whatever else the line holds. */
  lemma {:induction false} NoFaultIsMissed(s: string)
    ensures Faults(s) == FaultsEverywhere(s)
    decreases |s|
  {
    if s == [] {
    } else {
      var n := FaultLength(s);
      if n > 0 {
        forall i | 0 <= i < n - 1 ensures FaultLength(s[1..][i..]) == 0 {
          assert s[1..][i..] == s[i + 1..];
          NoTokenInside(s, i + 1);
        }
        NothingUpTo(s[1..], n - 1);
        assert s[1..][n - 1..] == s[n..];
        NoFaultIsMissed(s[n..]);
      } else {
        NoFaultIsMissed(s[1..]);
      }
    }
  }

  /** Positions a and b enclose a complete status block. */
  ghost predicate Encloses(s: string, a: int, b: int) {
    0 <= a < b < |s| && s[a] == '<' && s[b] == '>' && forall k :: a < k < b ==> !IsAngle(s[k])
  }

  ghost predicate InBlock(s: string, i: int) {
    exists a, b :: a <= i <= b && Encloses(s, a, b)
  }

  lemma BlockEncloses(s: string)
    requires BlockLength(s) > 0
    ensures Encloses(s, 0, BlockLength(s) - 1)
  {
    assert forall k :: 0 < k < BlockLength(s) - 1 ==> s[k] == s[1..][k - 1];
  }

  /** Blocks of s after a first block of length n are blocks of the rest. */
  lemma InRest(s: string, n: nat, i: nat)
    requires n <= i < |s|
    requires forall a, b :: Encloses(s, a, b) ==> b < n || a >= n
    ensures InBlock(s, i) <==> InBlock(s[n..], i - n)
  {
    var t := s[n..];
    if InBlock(s, i) {
      var a, b :| a <= i <= b && Encloses(s, a, b);
      assert Encloses(t, a - n, b - n) by {
        assert forall k :: a - n < k < b - n ==> t[k] == s[k + n];
      }
    }
    if InBlock(t, i - n) {
      var a, b :| a <= i - n <= b && Encloses(t, a, b);
      assert Encloses(s, a + n, b + n) by {
        assert forall k :: a + n < k < b + n ==> s[k] == t[k - n];
      }
    }
  }

  lemma NoBlockHere(s: string)
    requires s != [] && BlockLength(s) == 0
    ensures forall a, b :: Encloses(s, a, b) ==> a >= 1
  {
  }

  lemma FirstBlockOnly(s: string)
    requires BlockLength(s) > 0
    ensures forall a, b :: Encloses(s, a, b) ==> b < BlockLength(s) || a >= BlockLength(s)
  {
    BlockEncloses(s);
  }

  lemma FirstPlace(s: string, i: nat)
    requires i < |s|
    ensures i < BlockLength(s) ==> InBlock(s, i)
    ensures BlockLength(s) == 0 && i == 0 ==> !InBlock(s, i)
  {
    hide Encloses;
    if BlockLength(s) > 0 { BlockEncloses(s); } else { NoBlockHere(s); }
  }

  lemma BlankedBlock(s: string, i: nat)
    requires i < |s| && BlockLength(s) > 0
    ensures var n := BlockLength(s);
            Blanked(s)[i] == if i < n then ' ' else Blanked(s[n..])[i - n]
  {
    hide Blanked, BlockLength, Spaces;
    BlankedParts(s);
    JoinedAt(Spaces(BlockLength(s)), Blanked(s[BlockLength(s)..]), i);
  }

  lemma BlankedOther(s: string, i: nat)
    requires i < |s| && BlockLength(s) == 0
    ensures Blanked(s)[i] == if i == 0 then s[0] else Blanked(s[1..])[i - 1]
  {
    hide Blanked, BlockLength;
    BlankedParts(s);
    JoinedAt([s[0]], Blanked(s[1..]), i);
  }

  lemma JoinedAt(a: string, b: string, i: nat)
    requires i < |a| + |b|
    ensures (a + b)[i] == if i < |a| then a[i] else b[i - |a|]
  {
  }

  lemma BlankedParts(s: string)
    requires s != []
    ensures var n := BlockLength(s);
            Blanked(s) == if n > 0 then Spaces(n) + Blanked(s[n..]) else [s[0]] + Blanked(s[1..])
  {
    hide BlockLength, Spaces;
  }

  /** Exactly the characters of complete status blocks are blanked out. */
  lemma {:induction false} BlankedExactly(s: string, i: nat)
    requires i < |s|
    ensures Blanked(s)[i] == if InBlock(s, i) then ' ' else s[i]
    decreases |s|
  {
    hide InBlock, Encloses, BlockLength, Blanked;
    var n := BlockLength(s);
    FirstPlace(s, i);
    if n > 0 {
      BlankedBlock(s, i);
      if i >= n {
        FirstBlockOnly(s);
        InRest(s, n, i);
        BlankedExactly(s[n..], i - n);
      }
    } else {
      BlankedOther(s, i);
      if i > 0 {
        NoBlockHere(s);
        InRest(s, 1, i);
        BlankedExactly(s[1..], i - 1);
      }
    }
  }

  lemma {:induction false} EverywhereHolds(s: string, i: nat)
    requires i < |s| && FaultLength(s[i..]) > 0
    ensures s[i..][..FaultLength(s[i..])] in FaultsEverywhere(s)
  {
    if i == 0 {
      assert s[0..] == s;
    } else {
      assert s[1..][i - 1..] == s[i..];
      EverywhereHolds(s[1..], i - 1);
    }
  }

  // ----- A line that carries several messages ----------------------------------------------

  /** The complete status blocks of a text, in order. */
  ghost function Enclosed(s: string): seq<string> {
    if s == [] then []
    else if exists b :: Encloses(s, 0, b) then
      var b :| Encloses(s, 0, b);
      [s[..b + 1]] + Enclosed(s[1..])
    else Enclosed(s[1..])
  }

  /** The fault tokens of a text, at every position and in order. */
  ghost function Tokens(s: string): seq<string> {
    if s == [] then []
    else if exists n :: 0 < n <= |s| && BeginsFault(s, n) then
      var n :| 0 < n <= |s| && BeginsFault(s, n);
      [s[..n]] + Tokens(s[1..])
    else Tokens(s[1..])
  }

  lemma {:induction false} NoneOpened(s: string, k: nat)
    requires k <= |s| && forall i :: 0 <= i < k ==> s[i] != '<'
    ensures Enclosed(s) == Enclosed(s[k..])
  {
    if k == 0 {
      assert s[0..] == s;
    } else {
      NoneOpened(s[1..], k - 1);
      assert s[1..][k - 1..] == s[k..];
    }
  }

  lemma FirstBlock(s: string, b: int)
    requires BlockLength(s) > 0
    ensures Encloses(s, 0, b) <==> b == BlockLength(s) - 1
    ensures forall i :: 0 < i < BlockLength(s) ==> s[i] != '<'
  {
    BlockEncloses(s);
    assert Encloses(s, 0, BlockLength(s) - 1);
  }

  lemma FirstBlocks(s: string)
    requires s != []
    ensures var n := BlockLength(s); Blocks(s) == if n > 0 then [s[..n]] + Blocks(s[n..]) else Blocks(s[1..])
    ensures var n := BlockLength(s); Enclosed(s) == if n > 0 then [s[..n]] + Enclosed(s[n..]) else Enclosed(s[1..])
  {
    hide Encloses, BlockLength;
    var n := BlockLength(s);
    if n > 0 {
      forall b ensures Encloses(s, 0, b) <==> b == n - 1 { FirstBlock(s, b); }
      FirstBlock(s, n - 1);
      assert Enclosed(s) == [s[..n]] + Enclosed(s[1..]);
      NoneOpened(s[1..], n - 1);
      assert s[1..][n - 1..] == s[n..];
    } else {
      NoBlockHere(s);
    }
  }

  lemma {:induction false} BlocksAreEnclosed(s: string)
    ensures Blocks(s) == Enclosed(s)
    decreases |s|
  {
    hide BlockLength, Enclosed, Blocks;
    if s == [] {
      NoBlocksEnclosed();
    } else {
      var n := BlockLength(s);
      FirstBlocks(s);
      BlocksAreEnclosed(s[if n > 0 then n else 1..]);
    }
  }

  lemma NoBlocksEnclosed()
    ensures Blocks("") == [] && Enclosed("") == []
  {
  }

  lemma {:induction false} FaultsAreTokensOf(s: string)
    ensures FaultsEverywhere(s) == Tokens(s)
  {
    hide FaultLength, BeginsFault;
    if s == [] {
    } else {
      forall n | n > 0 ensures FaultLength(s) == n <==> BeginsFault(s, n) { FaultsByText(s, n); }
      if FaultLength(s) > 0 { assert BeginsFault(s, FaultLength(s)); }
      FaultsAreTokensOf(s[1..]);
    }
  }

  /** A line that carries more or less than one message. */
  ghost predicate Tangled(line: string) {
    Strip(line) != "" && !OneMessage(Strip(line))
  }

  /** What a text says in parts: its complete status blocks, then outside them its fault tokens,
      unless it is bracketed feedback, then the ok at its end. */
  ghost function PartsOf(s: string): seq<string> {
    Enclosed(s)
    + (if s != "" && s[0] == '[' then [] else Tokens(Blanked(s)))
    + (if TrailingOk(Blanked(s)) then ["ok"] else [])
  }

  /** A tangled line gives exactly its parts, or itself when it has none: no fault, status or ok in it
      is lost and none is invented. */
  lemma TangledGivesItsParts(line: string)
    requires Tangled(line)
    ensures var s := Strip(line); SplitResponses(line) == if PartsOf(s) == [] then [s] else PartsOf(s)
  {
    hide Strip, Clean, OneMessage, Blocks, Blanked, Faults, Enclosed, Tokens, EndsInOk, TrailingOk;
    var s := Strip(line);
    StripTwice(line);
    CleanByText(s);
    BlocksAreEnclosed(s);
    NoFaultIsMissed(Blanked(s));
    FaultsAreTokensOf(Blanked(s));
    OkByText(Blanked(s));
    assert Recovered(s) == PartsOf(s);
  }

  /** A status fragment that is never closed, then an ok: exactly the ok. */
  lemma UnclosedStatusThenOk(line: string)
    requires var s := Strip(line); "<" <= s && '>' !in s && TrailingOk(s) && Tokens(s) == []
    ensures SplitResponses(line) == ["ok"]
  {
    hide Strip, Clean, OneMessage, Tokens, Blocks, Blanked, TrailingOk;
    var s := Strip(line);
    StripTwice(line);
    NoBlocks(s);
    UnclosedIsUnclean(s);
    CleanByText(s);
    BlocksAreEnclosed(s);
    TangledGivesItsParts(line);
    assert PartsOf(s) == ["ok"];
  }

  ghost predicate IsTokenAt(t: string, i: int, n: int) {
    0 <= i < |t| && 0 < n <= |t| - i && BeginsFault(t[i..], n)
  }

  /** On a tangled line without a bracket first, every fault token outside the complete status blocks
      becomes a message, and is taken for the fault it says. */
  lemma EveryFaultIsRecovered(line: string, i: nat, n: nat)
    requires Tangled(line) && Strip(line)[0] != '[' && IsTokenAt(Blanked(Strip(line)), i, n)
    ensures var t := Blanked(Strip(line))[i..];
            var m := t[..n]; var c := Classify(m);
            && m in SplitResponses(line)
            && if BeginsAlarm(t, n) then AllDigits(m[6..]) && c == AlarmReply(Some(DecimalValue(m[6..])))
               else IsErrorText(m) && Says(m, c) && if m[..5] == "ERROR" then c == VendorFault(m) else c.ErrorReply?
  {
    hide Classify, Strip, BeginsFault, BeginsAlarm, IsErrorText, Says, Faults, FaultLength, Clean, OneMessage;
    var s := Strip(line);
    var t := Blanked(s)[i..];
    StripTwice(line);
    CleanByText(s);
    FaultsByText(t, n);
    EverywhereHolds(Blanked(s), i);
    NoFaultIsMissed(Blanked(s));
    assert t[..n] in Recovered(s);
    FaultTokenClassifies(t, n);
  }
}
