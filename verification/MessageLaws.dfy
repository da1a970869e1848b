/** What the classifiers take a message for, said by its text and without them. */
module MessageLaws {
  import opened Options
  import opened Text
  import opened Decimals
  import opened GrblMessages
  import opened GrblProtocol

  // ----- Error texts -----------------------------------------------------------------------

  /** The word error, each letter in either case, and a colon. */
  ghost predicate ErrorHead(head: string) {
    |head| == 6 && head[5] == ':' && forall i :: 0 <= i < 5 ==> head[i] == "error"[i] || head[i] == "ERROR"[i]
  }

  ghost predicate ErrorParts(s: string, head: string, gap: string, digits: string, pad: string, dot: string) {
    && s == head + (gap + (digits + (pad + dot)))
    && ErrorHead(head) && Blank(gap) && Blank(pad) && (dot == "" || dot == ".")
  }

  /** error: in any case of its letters, white space, digits, and after white space perhaps a period. */
  ghost predicate SpellsError(s: string, digits: string) {
    && digits != [] && AllDigits(digits)
    && exists head, gap, pad, dot :: ErrorParts(s, head, gap, digits, pad, dot)
  }

  ghost predicate IsErrorText(s: string) {
    exists digits :: SpellsError(s, digits)
  }

  lemma HeadSpelled(head: string)
    requires |head| == 6
    ensures Upper(head) == "ERROR:" <==> ErrorHead(head)
  {
    var u := Upper(head);
    assert forall i :: 0 <= i < 6 ==> u[i] == UpperChar(head[i]);
    if ErrorHead(head) {
      assert u[0] == 'E' && u[1] == 'R' && u[2] == 'R' && u[3] == 'O' && u[4] == 'R' && u[5] == ':';
      assert u == "ERROR:";
    }
    if u == "ERROR:" {
      assert u[0] == 'E' && u[1] == 'R' && u[2] == 'R' && u[3] == 'O' && u[4] == 'R' && u[5] == ':';
    }
  }

  lemma ErrorRead(s: string, head: string, gap: string, digits: string, pad: string, dot: string)
    requires ErrorParts(s, head, gap, digits, pad, dot) && digits != [] && AllDigits(digits) && Strip(s) == s
    ensures ErrorDigits(s) == Some(digits)
  {
    hide Strip, Lstrip, DigitRun, Upper;
    HeadSpelled(head);
    var tail := pad + dot;
    var r := digits + tail;
    assert s[..6] == head && s[6..] == gap + r;
    assert r[0] == digits[0];
    LstripGap(gap, r);
    assert tail == [] || !IsDigit(tail[0]);
    RunEnds(digits, tail);
    assert r[..|digits|] == digits && r[|digits|..] == tail;
    LstripGap(pad, dot);
  }

  /** What ErrorDigits finds, cut up. */
  lemma ErrorCut(s: string) returns (gap: string, digits: string, tail: string)
    requires ErrorDigits(s).Some? && Strip(s) == s
    ensures |s| >= 6 && s[6..] == gap + (digits + tail) && Upper(s[..6]) == "ERROR:" && Blank(gap)
    ensures ErrorDigits(s) == Some(digits) && (Lstrip(tail) == "" || Lstrip(tail) == ".")
    ensures digits != [] && AllDigits(digits)
  {
    hide Strip, Lstrip, DigitRun, Upper;
    var t := s[6..];
    var r := Lstrip(t);
    BlankStart(t);
    gap, digits, tail := t[..|t| - |r|], r[..DigitRun(r)], r[DigitRun(r)..];
    assert r == digits + tail;
  }

  lemma ErrorReadBack(s: string)
    requires ErrorDigits(s).Some? && Strip(s) == s
    ensures SpellsError(s, ErrorDigits(s).value)
  {
    hide Strip, Lstrip, Upper, ErrorParts, ErrorDigits, ErrorHead;
    var gap, digits, tail := ErrorCut(s);
    var head, dot := s[..6], Lstrip(tail);
    BlankStart(tail);
    HeadSpelled(head);
    var pad := tail[..|tail| - |dot|];
    assert s == head + s[6..];
    PartsJoin(s, head, gap, digits, pad, dot);
  }

  lemma PartsJoin(s: string, head: string, gap: string, digits: string, pad: string, dot: string)
    requires s == head + (gap + (digits + (pad + dot)))
    requires ErrorHead(head) && Blank(gap) && Blank(pad) && (dot == "" || dot == ".")
    ensures ErrorParts(s, head, gap, digits, pad, dot)
  {
  }

  /** An error text is read as one, digits and all, and nothing else is. */
  lemma ErrorsByText(line: string, digits: string)
    ensures ErrorDigits(line) == Some(digits) <==> SpellsError(Strip(line), digits)
  {
    hide ErrorParts, Strip;
    var s := Strip(line);
    StripTwice(line);
    SameDigits(line);
    if ErrorDigits(line) == Some(digits) { ErrorReadBack(s); }
    if SpellsError(s, digits) {
      var head, gap, pad, dot :| ErrorParts(s, head, gap, digits, pad, dot);
      ErrorRead(s, head, gap, digits, pad, dot);
    }
  }

  lemma SameDigits(line: string)
    ensures ErrorDigits(Strip(line)) == ErrorDigits(line)
  {
    hide Strip, Lstrip, DigitRun, Upper;
    StripTwice(line);
  }

  lemma ErrorTexts(line: string)
    ensures IsError(line) <==> IsErrorText(Strip(line))
  {
    hide SpellsError, ErrorDigits;
    if IsError(line) { ErrorsByText(line, ErrorDigits(line).value); }
    if IsErrorText(Strip(line)) {
      var digits :| SpellsError(Strip(line), digits);
      ErrorsByText(line, digits);
    }
  }

  // ----- Messages --------------------------------------------------------------------------

  ghost predicate IsBracketed(s: string) {
    |s| >= 2 && s[0] == '<' && s[|s| - 1] == '>'
  }

  ghost predicate IsGreeting(s: string) {
    (|s| >= 5 && s[..5] == "Grbl ") || (|s| >= 8 && s[..8] == "GrblHAL ")
  }

  lemma BracketsShow(line: string)
    ensures IsStatusReport(line) <==> IsBracketed(Strip(line))
  {
    hide Strip;
    var s := Strip(line);
    if s != [] { assert s[|s| - 1..] == [s[|s| - 1]]; }
  }

  lemma GreetingShows(line: string)
    ensures IsGrblGreeting(line) <==> IsGreeting(Strip(line))
  {
    hide Strip;
  }

  /** What a text, white space at its ends aside, says. Nothing says Unknown. */
  ghost predicate Says(s: string, m: Message) {
    match m
    case Ok => s == "ok"
    case VendorFault(text) => text == s && IsErrorText(s) && s[..5] == "ERROR"
    case ErrorReply(code) =>
      exists digits :: SpellsError(s, digits) && s[..5] != "ERROR" && code == DecimalValue(digits)
    case AlarmReply(alarm) => |s| >= 6 && s[..6] == "ALARM:" && alarm == ParseInt(s[6..])
    case Status(report) => IsBracketed(s) && ParseStatusReport(s) == Some(report)
    case BadStatus => IsBracketed(s) && ParseStatusReport(s) == None
    case Feedback => s != "" && s[0] == '['
    case Greeting => IsGreeting(s)
    case Unknown => false
  }

  lemma ErrorStart(s: string)
    requires IsErrorText(s)
    ensures |s| >= 6 && ErrorHead(s[..6]) && s[5] == ':'
    ensures s[..5] == "ERROR" <==> "ERROR:" <= s
  {
    var digits :| SpellsError(s, digits);
    var head, gap, pad, dot :| ErrorParts(s, head, gap, digits, pad, dot);
    assert s[..6] == head && s[5] == head[5];
  }

  lemma ErrorCodes(line: string, digits: string)
    requires SpellsError(Strip(line), digits)
    ensures GetErrorCode(line) == Some(DecimalValue(digits))
  {
    hide ErrorParts, ErrorDigits, ParseInt;
    ErrorsByText(line, digits);
    DigitsParse(digits);
  }

  lemma VendorByText(line: string)
    ensures IsVendorFault(line) <==> IsErrorText(Strip(line)) && Strip(line)[..5] == "ERROR"
  {
    hide IsErrorText, IsError;
    ErrorTexts(line);
    if IsErrorText(Strip(line)) { ErrorStart(Strip(line)); }
  }

  lemma SameReport(line: string)
    ensures ParseStatusReport(Strip(line)) == ParseStatusReport(line)
  {
    hide Strip, SplitOn, AddFields;
    StripTwice(line);
  }

  /** The recognisers that do not look at numbers, by the text. */
  lemma RecognisedByText(line: string)
    ensures var s := Strip(line);
            && (IsOk(line) <==> s == "ok") && (IsAlarm(line) <==> |s| >= 6 && s[..6] == "ALARM:")
            && (IsStatusReport(line) <==> IsBracketed(s)) && (IsFeedbackMessage(line) <==> s != "" && s[0] == '[')
            && (IsGrblGreeting(line) <==> IsGreeting(s))
  {
    hide Strip, IsBracketed, IsGreeting, IsStatusReport, IsGrblGreeting;
    BracketsShow(line);
    GreetingShows(line);
    var s := Strip(line);
    assert "ALARM:" <= s <==> |s| >= 6 && s[..6] == "ALARM:";
    assert "[" <= s <==> s != "" && s[0] == '[';
  }

  /** What a text can say shows in its first character. */
  lemma FirstCharacter(s: string)
    ensures s == "ok" ==> s[0] == 'o'
    ensures |s| >= 6 && s[..6] == "ALARM:" ==> s[0] == 'A'
    ensures IsBracketed(s) ==> s[0] == '<'
    ensures IsGreeting(s) ==> s[0] == 'G'
    ensures IsErrorText(s) ==> |s| >= 6 && (s[0] == 'e' || s[0] == 'E')
  {
    hide IsErrorText;
    if IsErrorText(s) {
      ErrorStart(s);
      assert s[0] == s[..6][0] && ("error"[0] == 'e' && "ERROR"[0] == 'E');
    }
    if |s| >= 6 { assert s[..6][0] == s[0]; }
    if |s| >= 5 { assert s[..5][0] == s[0]; }
    if |s| >= 8 { assert s[..8][0] == s[0]; }
  }

  lemma SaidIsClassified(line: string, m: Message)
    requires Says(Strip(line), m)
    ensures Classify(line) == m
  {
    hide IsVendorFault, IsErrorText, ErrorParts, ErrorDigits, ParseStatusReport, Strip, ParseInt, ErrorHead;
    hide IsOk, IsAlarm, IsStatusReport, IsFeedbackMessage, IsGrblGreeting, IsBracketed, IsGreeting;
    VendorByText(line);
    ErrorTexts(line);
    SameReport(line);
    RecognisedByText(line);
    FirstCharacter(Strip(line));
    if m.ErrorReply? {
      var digits :| SpellsError(Strip(line), digits) && m.code == DecimalValue(digits);
      ErrorCodes(line, digits);
    }
  }

  lemma ErrorSaid(line: string)
    requires Classify(line).ErrorReply? || Classify(line).VendorFault?
    ensures Says(Strip(line), Classify(line))
  {
    hide IsVendorFault, IsErrorText, ErrorParts, ErrorDigits, ParseStatusReport, Strip, ParseInt;
    hide IsOk, IsAlarm, IsStatusReport, IsFeedbackMessage, IsGrblGreeting, GetAlarmCode, AllDigits, IsBracketed;
    VendorByText(line);
    ErrorTexts(line);
    if Classify(line).ErrorReply? {
      ErrorsByText(line, ErrorDigits(line).value);
      ErrorCodes(line, ErrorDigits(line).value);
      assert SpellsError(Strip(line), ErrorDigits(line).value);
    }
  }

  lemma OtherSaid(line: string)
    requires Classify(line) != Unknown && !Classify(line).ErrorReply? && !Classify(line).VendorFault?
    ensures Says(Strip(line), Classify(line))
  {
    hide IsVendorFault, IsErrorText, SpellsError, GetErrorCode, ParseStatusReport, Strip, ParseInt;
    hide IsOk, IsAlarm, IsStatusReport, IsFeedbackMessage, IsGrblGreeting, IsBracketed, IsGreeting;
    SameReport(line);
    RecognisedByText(line);
  }

  lemma ClassifiedIsSaid(line: string)
    requires Classify(line) != Unknown
    ensures Says(Strip(line), Classify(line))
  {
    hide Classify, Says;
    if Classify(line).ErrorReply? || Classify(line).VendorFault? { ErrorSaid(line); } else { OtherSaid(line); }
  }

  /** Every message is classified by what its text says: errors and vendor faults are told apart by
      the case of the word alone, and what says nothing is unknown. */
  lemma ClassifiedByText(line: string, m: Message)
    ensures m != Unknown ==> (Classify(line) == m <==> Says(Strip(line), m))
    ensures m == Unknown ==> (Classify(line) == m <==> forall k :: !Says(Strip(line), k))
  {
    hide Classify, Says;
    if Classify(line) != Unknown { ClassifiedIsSaid(line); }
    forall k | Says(Strip(line), k) ensures Classify(line) == k { SaidIsClassified(line, k); }
    assert !Says(Strip(line), Unknown) by { NothingSaysUnknown(Strip(line)); }
  }

  lemma NothingSaysUnknown(s: string)
    ensures !Says(s, Unknown)
  {
  }

  // ----- Parts of a line that carries several ----------------------------------------------

  ghost predicate TokenParts(s: string, head: string, gap: string, digits: string, rest: string) {
    && s == head + (gap + (digits + rest)) && ErrorHead(head) && Blank(gap)
    && digits != [] && AllDigits(digits) && (rest == [] || !IsDigit(rest[0]))
  }

  function PeriodLength(rest: string): nat {
    if rest != [] && rest[0] == '.' then 1 else 0
  }

  /** The first n characters are an error with all its digits, and with the period behind them. */
  ghost predicate BeginsError(s: string, n: nat) {
    exists head, gap, digits, rest ::
      TokenParts(s, head, gap, digits, rest) && n == |head| + |gap| + |digits| + PeriodLength(rest)
  }

  /** The first n characters are an alarm with all its digits. */
  ghost predicate BeginsAlarm(s: string, n: nat) {
    6 < n <= |s| && s[..6] == "ALARM:" && AllDigits(s[6..n]) && (n < |s| ==> !IsDigit(s[n]))
  }

  ghost predicate BeginsFault(s: string, n: nat) {
    BeginsError(s, n) || BeginsAlarm(s, n)
  }

  lemma ErrorTokenLength(s: string, head: string, gap: string, digits: string, rest: string)
    requires TokenParts(s, head, gap, digits, rest)
    ensures FaultLength(s) == |head| + |gap| + |digits| + PeriodLength(rest)
  {
    hide Lstrip, DigitRun, Upper;
    HeadSpelled(head);
    var r := digits + rest;
    assert s[..6] == head && s[6..] == gap + r;
    assert r[0] == digits[0];
    LstripGap(gap, r);
    RunEnds(digits, rest);
    assert rest != [] ==> r[|digits|] == rest[0];
  }

  lemma AlarmTokenLength(s: string, n: nat)
    requires BeginsAlarm(s, n)
    ensures FaultLength(s) == n && !(Upper(s[..6]) == "ERROR:")
  {
    hide DigitRun;
    var t := s[6..];
    assert t == s[6..n] + s[n..];
    RunEnds(s[6..n], s[n..]);
    assert Upper(s[..6])[0] == 'A';
  }

  lemma FaultBegins(s: string)
    requires FaultLength(s) > 0
    ensures BeginsFault(s, FaultLength(s))
  {
    hide Lstrip, DigitRun, Upper, TokenParts;
    if |s| >= 6 && Upper(s[..6]) == "ERROR:" {
      ErrorBegins(s);
    } else {
      var t := s[6..];
      var n := DigitRun(t);
      assert t[..n] == s[6..6 + n] && (n < |t| ==> t[n] == s[6 + n]);
    }
  }

  /** What FaultLength finds after the word, cut up. */
  lemma TokenCut(s: string) returns (gap: string, digits: string, rest: string)
    requires |s| >= 6 && Upper(s[..6]) == "ERROR:" && FaultLength(s) > 0
    ensures s[6..] == gap + (digits + rest) && Blank(gap) && digits != [] && AllDigits(digits)
    ensures rest == [] || !IsDigit(rest[0])
    ensures FaultLength(s) == 6 + |gap| + |digits| + PeriodLength(rest)
  {
    hide Lstrip, DigitRun, Upper, AllDigits;
    var t := s[6..];
    var r := Lstrip(t);
    BlankStart(t);
    var n := DigitRun(r);
    gap, digits, rest := t[..|t| - |r|], r[..n], r[n..];
    assert r == digits + rest;
    assert rest != [] ==> rest[0] == r[n];
  }

  lemma ErrorBegins(s: string)
    requires |s| >= 6 && Upper(s[..6]) == "ERROR:" && FaultLength(s) > 0
    ensures BeginsError(s, FaultLength(s))
  {
    hide Upper, TokenParts, FaultLength, AllDigits, ErrorHead, Blank;
    var gap, digits, rest := TokenCut(s);
    HeadSpelled(s[..6]);
    assert s == s[..6] + s[6..];
    TokenJoins(s, s[..6], gap, digits, rest);
    assert |s[..6]| + |gap| + |digits| + PeriodLength(rest) == FaultLength(s);
  }

  lemma TokenJoins(s: string, head: string, gap: string, digits: string, rest: string)
    requires s == head + (gap + (digits + rest)) && ErrorHead(head) && Blank(gap)
    requires digits != [] && AllDigits(digits) && (rest == [] || !IsDigit(rest[0]))
    ensures TokenParts(s, head, gap, digits, rest)
  {
  }

  /** The fault token a text begins with is the one its text shows, at its full length. */
  lemma FaultsByText(s: string, n: nat)
    requires n > 0
    ensures FaultLength(s) == n <==> BeginsFault(s, n)
  {
    hide FaultLength, TokenParts, BeginsAlarm;
    if FaultLength(s) == n { FaultBegins(s); }
    if BeginsAlarm(s, n) { AlarmTokenLength(s, n); }
    if BeginsError(s, n) {
      var head, gap, digits, rest :|
        TokenParts(s, head, gap, digits, rest) && n == |head| + |gap| + |digits| + PeriodLength(rest);
      ErrorTokenLength(s, head, gap, digits, rest);
    }
  }

  /** One message and nothing else: an ok, an error, an alarm with a number, or angle brackets
      around anything. */
  ghost predicate OneMessage(s: string) {
    s == "ok" || IsErrorText(s) || BeginsAlarm(s, |s|) || IsBracketed(s)
  }

  lemma CleanByText(s: string)
    requires Strip(s) == s
    ensures Clean(s) <==> OneMessage(s)
  {
    hide IsErrorText, IsError, Strip;
    ErrorTexts(s);
    if |s| >= 6 { assert s[6..|s|] == s[6..]; }
    if |s| >= 1 { assert s[|s| - 1..] == [s[|s| - 1]]; }
  }

  /** An ok and after it nothing but white space. */
  ghost predicate TrailingOk(s: string) {
    exists k :: 2 <= k <= |s| && s[k - 2..k] == "ok" && Blank(s[k..])
  }

  lemma OkByText(s: string)
    ensures EndsInOk(s) <==> TrailingOk(s)
  {
    hide Rstrip;
    RstripLeaves(s);
    var r := Rstrip(s);
    if EndsInOk(s) {
      assert s[|r| - 2..|r|] == r[|r| - 2..];
    }
    if TrailingOk(s) {
      var k :| 2 <= k <= |s| && s[k - 2..k] == "ok" && Blank(s[k..]);
      assert s[k - 1] == s[k - 2..k][1];
      RstripIs(s, k);
      assert s[..k][k - 2..] == s[k - 2..k];
    }
  }
}
