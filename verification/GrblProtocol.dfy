/** Reading and writing GRBL 1.1 protocol lines: classifying a message, splitting a line that
    carries several, parsing and printing status reports. */
module GrblProtocol {
  import opened Bytes
  import opened Options
  import opened Text
  import opened Decimals
  import opened GrblMessages

  const LINE_TERMINATOR := "\r\n"

  predicate IsRealtimeCommand(b: byte) {
    b in [0x3f, 0x21, 0x7e, 0x18] || 0x80 <= b < 0xa2
  }

  // ----- Classifiers -----------------------------------------------------------------------

  predicate IsOk(line: string) {
    Strip(line) == "ok"
  }

  /** The digits of an error:N or ERROR:NN. line, None for any other line. */
  function ErrorDigits(line: string): Option<string> {
    var s := Strip(line);
    if |s| < 6 || Upper(s[..6]) != "ERROR:" then None
    else
      var r := Lstrip(s[6..]);
      var n := DigitRun(r);
      var tail := Lstrip(r[n..]);
      if n > 0 && (tail == "" || tail == ".") then Some(r[..n]) else None
  }

  predicate IsError(line: string) {
    ErrorDigits(line).Some?
  }

  predicate IsVendorFault(line: string) {
    IsError(line) && "ERROR:" <= Strip(line)
  }

  predicate IsAlarm(line: string) {
    "ALARM:" <= Strip(line)
  }

  predicate IsStatusReport(line: string) {
    var s := Strip(line);
    "<" <= s && IsSuffix(">", s)
  }

  predicate IsFeedbackMessage(line: string) {
    "[" <= Strip(line)
  }

  predicate IsGrblGreeting(line: string) {
    "Grbl " <= Strip(line) || "GrblHAL " <= Strip(line)
  }

  function GetErrorCode(line: string): Option<int> {
    var digits := ErrorDigits(line);
    if digits.None? then None else ParseInt(digits.value)
  }

  function GetAlarmCode(line: string): Option<int> {
    if IsAlarm(line) then ParseInt(Strip(line)[6..]) else None
  }

  /** What the streaming loops take one message for, in the order they ask. */
  function Classify(line: string): Message {
    if IsOk(line) then Ok
    else if IsVendorFault(line) then VendorFault(Strip(line))
    else if GetErrorCode(line).Some? then ErrorReply(GetErrorCode(line).value)
    else if IsAlarm(line) then AlarmReply(GetAlarmCode(line))
    else if IsStatusReport(line) then
      var report := ParseStatusReport(line);
      if report.Some? then Status(report.value) else BadStatus
    else if IsFeedbackMessage(line) then Feedback
    else if IsGrblGreeting(line) then Greeting
    else Unknown
  }

  /** The messages of one serial line, as the streamer takes them. */
  function MessagesOf(line: string): seq<Message> {
    var parts := SplitResponses(line);
    seq(|parts|, i requires 0 <= i < |parts| => Classify(parts[i]))
  }

  // ----- Splitting a line ------------------------------------------------------------------

  /** Length of the complete status block a string begins with, or 0. */
  function BlockLength(s: string): (n: nat)
    ensures n <= |s|
    ensures n > 0 <==> s != [] && s[0] == '<' && AngleAt(s[1..]) < |s| - 1 && s[1 + AngleAt(s[1..])] == '>'
    ensures n > 0 ==> n >= 2 && n == AngleAt(s[1..]) + 2 && s[n - 1] == '>'
  {
    if s == [] || s[0] != '<' then 0
    else
      var n := AngleAt(s[1..]);
      if n < |s| - 1 && s[1 + n] == '>' then n + 2 else 0
  }

  predicate IsAngle(c: char) {
    c == '<' || c == '>'
  }

  /** Position of the first angle bracket, or the length. */
  function AngleAt(s: string): (n: nat)
    ensures n <= |s|
    ensures forall i :: 0 <= i < n ==> !IsAngle(s[i])
    ensures n < |s| ==> IsAngle(s[n])
  {
    if s == [] || IsAngle(s[0]) then 0 else 1 + AngleAt(s[1..])
  }

  function Spaces(n: nat): (s: string)
    ensures |s| == n && forall i :: 0 <= i < n ==> s[i] == ' '
  {
    seq(n, i => ' ')
  }

  /** The complete status blocks, in order. */
  function Blocks(s: string): seq<string>
    decreases |s|
  {
    if s == [] then []
    else if BlockLength(s) > 0 then [s[..BlockLength(s)]] + Blocks(s[BlockLength(s)..])
    else Blocks(s[1..])
  }

  /** The string with its complete status blocks blanked out. */
  function Blanked(s: string): (t: string)
    ensures |t| == |s|
    decreases |s|
  {
    if s == [] then []
    else if BlockLength(s) > 0 then Spaces(BlockLength(s)) + Blanked(s[BlockLength(s)..])
    else [s[0]] + Blanked(s[1..])
  }

  /** Length of the fault token (error:N or ALARM:N) a string begins with, or 0. */
  function FaultLength(s: string): (n: nat)
    ensures n <= |s|
    ensures n > 0 ==> n >= 7
  {
    if |s| >= 6 && Upper(s[..6]) == "ERROR:" then
      var r := Lstrip(s[6..]);
      LstripTrims(s[6..]);
      var n := DigitRun(r);
      if n == 0 then 0
      else |s| - |r| + n + if n < |r| && r[n] == '.' then 1 else 0
    else if "ALARM:" <= s && DigitRun(s[6..]) > 0 then 6 + DigitRun(s[6..])
    else 0
  }

  /** The fault tokens found scanning from the left, each match skipped over. */
  function Faults(s: string): seq<string>
    decreases |s|
  {
    if s == [] then []
    else if FaultLength(s) > 0 then [s[..FaultLength(s)]] + Faults(s[FaultLength(s)..])
    else Faults(s[1..])
  }

  predicate ExactAlarm(s: string) {
    "ALARM:" <= s && |s| > 6 && AllDigits(s[6..])
  }

  /** A line that is one clean message. */
  predicate Clean(s: string) {
    IsOk(s) || IsError(s) || ExactAlarm(s) || IsStatusReport(s)
  }

  predicate EndsInOk(s: string) {
    IsSuffix("ok", Rstrip(s))
  }

  /** What is lifted out of a line that is not one clean message. */
  function Recovered(s: string): seq<string> {
    var rest := Blanked(s);
    Blocks(s) + (if "[" <= s then [] else Faults(rest)) + (if EndsInOk(rest) then ["ok"] else [])
  }

  function SplitResponses(line: string): seq<string> {
    var s := Strip(line);
    if s == "" then []
    else if Clean(s) then [s]
    else if Recovered(s) == [] then [s]
    else Recovered(s)
  }

  // ----- Status reports --------------------------------------------------------------------

  predicate IsLetter(c: char) {
    IsUpper(c) || IsLower(c)
  }

  /** State and fields of a status report: the text between the brackets, cut at each bar. */
  function StatusParts(line: string): (parts: Option<seq<string>>)
    ensures parts.Some? ==> parts.value != []
  {
    var s := Strip(line);
    if |s| < 3 || s[0] != '<' || s[|s| - 1] != '>' then None
    else
      var body := s[1..|s| - 1];
      var parts := SplitOn(body, '|');
      if '>' in body || parts[0] == "" then None else Some(parts)
  }

  function ParsePosition(value: string): Option<Position> {
    var v := if IsSuffix("\n", value) then value[..|value| - 1] else value;
    var parts := SplitOn(v, ',');
    if |parts| != 3 then None
    else
      var x, y, z := ParseDecimal(parts[0]), ParseDecimal(parts[1]), ParseDecimal(parts[2]);
      if x.Some? && y.Some? && z.Some? then Some(Position(x.value, y.value, z.value)) else None
  }

  function ParsePair(value: string): Option<(int, int)> {
    var parts := SplitOn(value, ',');
    if |parts| == 2 && ParseInt(parts[0]).Some? && ParseInt(parts[1]).Some?
    then Some((ParseInt(parts[0]).value, ParseInt(parts[1]).value)) else None
  }

  function ParseTriple(value: string): Option<(int, int, int)> {
    var parts := SplitOn(value, ',');
    if |parts| == 3 && ParseInt(parts[0]).Some? && ParseInt(parts[1]).Some? && ParseInt(parts[2]).Some?
    then Some((ParseInt(parts[0]).value, ParseInt(parts[1]).value, ParseInt(parts[2]).value)) else None
  }

  function Keep<T>(found: Option<T>, before: Option<T>): Option<T> {
    if found.Some? then found else before
  }

  /** Key and value of a field, None if it is not letters, a colon and something. */
  function SplitField(field: string): Option<(string, string)> {
    var n := IndexOf(field, ':');
    if 0 < n && n + 1 < |field| && (forall i :: 0 <= i < n ==> IsLetter(field[i]))
    then Some((Upper(field[..n]), field[n + 1..])) else None
  }

  /** A report after one more field; an unreadable value changes nothing. */
  function AddField(r: StatusReport, field: string): StatusReport {
    var f := SplitField(field);
    if f.None? then r else
    var (key, value) := f.value;
    match key
    case "MPOS" => r.(mpos := Keep(ParsePosition(value), r.mpos))
    case "WPOS" => r.(wpos := Keep(ParsePosition(value), r.wpos))
    case "WCO" => r.(wco := Keep(ParsePosition(value), r.wco))
    case "FS" => r.(fs := Keep(ParsePair(value), r.fs))
    case "OV" => r.(ov := Keep(ParseTriple(value), r.ov))
    case "PN" => r.(pn := Some(value))
    case "A" => r.(a := Some(value))
    case "BF" => r.(bf := Keep(ParsePair(value), r.bf))
    case _ => r
  }

  function AddFields(r: StatusReport, fields: seq<string>): StatusReport
    decreases |fields|
  {
    if fields == [] then r else AddFields(AddField(r, fields[0]), fields[1..])
  }

  function BareReport(state: string): StatusReport {
    StatusReport(state, None, None, None, None, None, None, None, None)
  }

  function ParseStatusReport(line: string): Option<StatusReport> {
    var parts := StatusParts(line);
    if parts.None? then None else Some(AddFields(BareReport(parts.value[0]), parts.value[1..]))
  }

  function PositionText(p: Position): string {
    Fixed3(p.x) + "," + Fixed3(p.y) + "," + Fixed3(p.z)
  }

  function MakeStatusResponse(state: string, mpos: Position, feed: int, spindle: int): string {
    "<" + state + "|MPos:" + PositionText(mpos)
    + "|FS:" + IntText(feed) + "," + IntText(spindle) + ">" + LINE_TERMINATOR
  }

  // ----- The program's loops ---------------------------------------------------------------

  /** parse_status_report, one field at a time. */
  method ReadStatusReport(line: string) returns (result: Option<StatusReport>)
    ensures result == ParseStatusReport(line)
  {
    var parts := StatusParts(line);
    if parts.None? { return None; }
    var report := BareReport(parts.value[0]);
    var fields := parts.value[1..];
    while fields != []
      invariant Some(AddFields(report, fields)) == ParseStatusReport(line)
      decreases |fields|
    {
      report := AddField(report, fields[0]);
      fields := fields[1..];
    }
    return Some(report);
  }

  /** Lift the complete status blocks out of a string. */
  method LiftBlocks(s: string) returns (blocks: seq<string>, remainder: string)
    ensures blocks == Blocks(s) && remainder == Blanked(s)
  {
    hide Spaces, BlockLength;
    blocks, remainder := [], "";
    var rest := s;
    while rest != []
      invariant blocks + Blocks(rest) == Blocks(s) && remainder + Blanked(rest) == Blanked(s)
      decreases |rest|
    {
      var n := BlockLength(rest);
      if n > 0 {
        Reassociate(remainder, Spaces(n), Blanked(rest[n..]));
        Reassociate(blocks, [rest[..n]], Blocks(rest[n..]));
        blocks := blocks + [rest[..n]];
        remainder := remainder + Spaces(n);
        rest := rest[n..];
      } else {
        Reassociate(remainder, [rest[0]], Blanked(rest[1..]));
        remainder := remainder + [rest[0]];
        rest := rest[1..];
      }
    }
  }

  lemma Reassociate<T>(a: seq<T>, b: seq<T>, c: seq<T>)
    ensures (a + b) + c == a + (b + c)
  {
  }

  method FindFaults(s: string) returns (faults: seq<string>)
    ensures faults == Faults(s)
  {
    faults := [];
    var rest := s;
    while rest != []
      invariant faults + Faults(rest) == Faults(s)
      decreases |rest|
    {
      var n := FaultLength(rest);
      if n > 0 {
        faults := faults + [rest[..n]];
        rest := rest[n..];
      } else {
        rest := rest[1..];
      }
    }
  }

  /** split_responses: lift the complete blocks out, then the fault tokens of what is left,
      then a trailing ok. */
  method SplitLine(line: string) returns (messages: seq<string>)
    ensures messages == SplitResponses(line)
  {
    hide Blocks, Blanked, Faults, FaultLength, Clean, EndsInOk;
    var s := Strip(line);
    if s == "" { return []; }
    if Clean(s) { return [s]; }
    var remainder;
    messages, remainder := LiftBlocks(s);
    if !("[" <= s) {
      var faults := FindFaults(remainder);
      messages := messages + faults;
    }
    if EndsInOk(remainder) { messages := messages + ["ok"]; }
    if messages == [] { messages := [s]; }
  }
}
