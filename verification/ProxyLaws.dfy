/** What each event may do to the proxy, said by the bytes and texts it brings: the state diagram, the
    job's commands and text, the bytes written to serial, the answers, and what is remembered. */
module ProxyLaws {
  import opened Bytes
  import opened Options
  import opened Text
  import opened Gcode
  import opened GcodeLaws
  import opened GrblProtocol
  import opened JobFiles
  import opened StreamerModel
  import opened ProxyModel

  /** A capture has its buffer, and a job its streamer. */
  ghost predicate Equipped(p: Proxy) {
    (p.buffer.Some? <==> p.state == Buffering) && (p.streamer.Some? <==> JobRuns(p))
  }

  // ----- Steering a job --------------------------------------------------------------------

  /** What an event asks of a job: by ! ~ or Ctrl-X from the client, or from the web. */
  function Asked(e: ProxyEvent): Option<Operator> {
    match e
    case RawByte(b, _) =>
      if b == 0x21 then Some(Operator.Pause) else if b == 0x7e then Some(Operator.Resume)
      else if b == 0x18 then Some(Operator.Cancel) else None
    case WebPause(_) => Some(Operator.Pause)
    case WebResume(_) => Some(Operator.Resume)
    case WebCancel(_) => Some(Operator.Cancel)
    case _ => None
  }

  /** A running job is paused, a paused one resumed, either cancelled; nothing else is heeded. */
  function Heeded(p: Proxy, e: ProxyEvent): Option<Operator> {
    match Asked(e)
    case None => None
    case Some(Pause) => if p.state == Executing then Some(Operator.Pause) else None
    case Some(Resume) => if p.state == Paused then Some(Operator.Resume) else None
    case Some(Cancel) => if p.state == Executing || p.state == Paused then Some(Operator.Cancel) else None
  }

  function CommandsOf(op: Option<Operator>): seq<Operator> {
    if op.Some? then [op.value] else []
  }

  // ----- The state diagram -----------------------------------------------------------------

  /** A line that ends a capture: the end marker or a program end. */
  ghost predicate EndsJob(c: Settings, line: string) {
    line != "" && (Matches(c.endMarker, line) || EndsProgram(line))
  }

  ghost predicate CaptureEnds(c: Settings, p: Proxy, e: ProxyEvent) {
    p.state == Buffering && (e.TimerFires? || (e.ClientLine? && EndsJob(c, e.line)))
  }

  /** A stored job can be started: no client's capture, no job and no error is on, and serial is there. */
  predicate StartTaken(c: Settings, p: Proxy, e: ProxyEvent) {
    && e.WebStart? && e.connected && e.file.Some?
    && (p.state == Passthrough || p.state == Disconnected) && (c.webSerial || p.serialKnown)
  }

  predicate ConsoleTaken(c: Settings, p: Proxy, e: ProxyEvent) {
    && e.Console? && e.writes && !p.hasClient && (c.webSerial || p.serialKnown)
    && (p.state == Passthrough || p.state == Disconnected || p.state == Error)
  }

  /** Where each event leads. */
  ghost function Diagram(c: Settings, p: Proxy, e: ProxyEvent): ProxyState {
    match e
    case ClientConnected => if p.state == Disconnected || p.state == Buffering then Passthrough else p.state
    case ClientDisconnected => if p.state == Executing || p.state == Paused then p.state else Disconnected
    case StreamerDone(r) =>
      if r.completed || p.userCancelled then if p.hasClient then Passthrough else Disconnected else Error
    case WebStart(_, _) => if StartTaken(c, p, e) then Executing else p.state
    case Console(line, _) =>
      if p.state == Error && ConsoleTaken(c, p, e) && Unlocks(line) then Disconnected else p.state
    case ClientLine(line, opens, _) =>
      if p.state == Passthrough && Matches(c.startMarker, line) && opens then Buffering
      else if CaptureEnds(c, p, e) then if p.serialKnown then Executing else Passthrough
      else if p.state == Error && Unlocks(line) then Passthrough
      else p.state
    case TimerFires =>
      if CaptureEnds(c, p, e) then if p.serialKnown then Executing else Passthrough else p.state
    case _ =>
      if p.state == Buffering && e.RawByte? && Asked(e).Some? then Passthrough
      else if Heeded(p, e) == Some(Operator.Pause) then Paused
      else if Heeded(p, e) == Some(Operator.Resume) then Executing
      else p.state
  }

  // ----- The job ---------------------------------------------------------------------------

  /** The text of the job an event starts: the stored file, or the captured lines and one program end. */
  ghost function JobText(c: Settings, p: Proxy, e: ProxyEvent): string {
    if e.WebStart? && e.file.Some? then e.file.value
    else
      FileText((if p.buffer.Some? then p.buffer.value else [])
               + [if e.ClientLine? && !Matches(c.endMarker, e.line) then e.line else "M2"])
  }

  /** A job goes on with its text, and with one command more for each that is heeded, until its
      streamer reports; a new one begins with nothing asked of it. */
  ghost predicate JobLaw(c: Settings, p: Proxy, e: ProxyEvent, p': Proxy) {
    if p.streamer.Some? && !e.StreamerDone? then
      && p'.streamer == Some(Running(p.streamer.value.text, p.streamer.value.commands + CommandsOf(Heeded(p, e))))
      && (p'.userCancelled <==> p.userCancelled || Heeded(p, e) == Some(Operator.Cancel))
    else if StartTaken(c, p, e) || (CaptureEnds(c, p, e) && p.serialKnown) then
      p'.streamer == Some(Running(JobText(c, p, e), [])) && !p'.userCancelled
    else p'.streamer == None
  }

  // ----- Bytes to the controller -----------------------------------------------------------

  /** ? ! ~ Ctrl-X, and 0x80 to 0xA1. */
  predicate RealTime(b: byte) {
    b == 0x3f || b == 0x21 || b == 0x7e || b == 0x18 || 0x80 <= b <= 0xa1
  }

  function ByteFor(op: Operator): byte {
    match op
    case Pause => 0x21
    case Resume => 0x7e
    case Cancel => 0x18
  }

  /** Serial takes the bytes of the event. */
  predicate CanWrite(c: Settings, p: Proxy, e: ProxyEvent) {
    match e
    case RawByte(_, writes) => writes
    case WebPause(writes) => writes && (c.webSerial || p.serialKnown)
    case WebResume(writes) => writes && (c.webSerial || p.serialKnown)
    case WebCancel(writes) => writes && (c.webSerial || p.serialKnown)
    case _ => false
  }

  /** The bytes an event brings the controller: at once the one that steers a job, with its chunk every
      other real-time byte of the client, but a ? only where no capture, job or error is on. */
  function BytesDue(c: Settings, p: Proxy, e: ProxyEvent): seq<Sent> {
    if !CanWrite(c, p, e) then []
    else if Heeded(p, e).Some? then [SentByte(ByteFor(Heeded(p, e).value), true)]
    else if e.RawByte? && RealTime(e.b) && (e.b == 0x3f ==> p.state == Passthrough || p.state == Disconnected)
    then [SentByte(e.b, false)]
    else []
  }

  function BytesOf(sent: seq<Sent>): seq<Sent> {
    if sent == [] then [] else (if sent[0].SentByte? then [sent[0]] else []) + BytesOf(sent[1..])
  }

  // ----- Answers ---------------------------------------------------------------------------

  /** What a client line is answered with, and what of it goes to the controller. */
  ghost function LineOutcome(c: Settings, p: Proxy, e: ProxyEvent): Out
    requires e.ClientLine?
  {
    var ok, locked := Out(["ok\r\n"], []), Out(["error:9\r\n"], []);
    match p.state
    case Disconnected => Out([], [])
    case Passthrough =>
      if Matches(c.startMarker, e.line) then if e.opens then ok else Out([], [])
      else Out([], if e.writes then [SentLine(e.line, false)] else [])
    case Error =>
      if e.line == "" then ok
      else if TurnsLaserOff(e.line) then if e.writes then Out([], [SentLine(e.line, true)]) else locked
      else if Unlocks(e.line) then Out([], if e.writes then [SentLine(e.line, true)] else [])
      else locked
    case _ => ok
  }

  predicate AnswersQueries(p: Proxy) {
    p.state != Passthrough && p.state != Disconnected
  }

  /** Lines are answered by state; a ? during a capture, a job or an error gets one status; nothing else
      is answered, and no line but these and the web console's goes out. */
  ghost predicate AnswerLaw(c: Settings, p: Proxy, e: ProxyEvent, out: Out) {
    if e.ClientLine? then out == LineOutcome(c, p, e)
    else
      && |out.replies| == (if e.RawByte? && e.b == 0x3f && AnswersQueries(p) then 1 else 0)
      && out.sent == if ConsoleTaken(c, p, e) then [SentConsole(Strip(e.command))] else BytesDue(c, p, e)
  }

  // ----- What is remembered ----------------------------------------------------------------

  /** The last status report; the result of the last job that failed, until it is cleared; whether a
      client is connected; and a serial connection, known from the first byte or started job on. */
  ghost predicate MemoryLaw(c: Settings, p: Proxy, e: ProxyEvent, p': Proxy) {
    && p'.lastStatus == (if e.StatusSeen? then Some(e.report) else p.lastStatus)
    && p'.hasClient == (e.ClientConnected? || (p.hasClient && !e.ClientDisconnected?))
    && p'.serialKnown == (p.serialKnown || e.RawByte? || StartTaken(c, p, e))
    && p'.lastError == (if e.StreamerDone? && Diagram(c, p, e) == Error then Some(e.result)
                        else if p.state == Error && (e.ClientLine? || e.Console?) && Diagram(c, p, e) != Error then None
                        else p.lastError)
  }

  /** A capture begins empty, and takes every line that is not blank and does not end it. */
  ghost predicate CaptureLaw(c: Settings, p: Proxy, e: ProxyEvent, p': Proxy) {
    if p'.state != Buffering then p'.buffer == None
    else if p.state != Buffering then p'.buffer == Some([])
    else if e.ClientLine? && e.line != "" && p.buffer.Some? then p'.buffer == Some(p.buffer.value + [e.line])
    else p'.buffer == p.buffer
  }

  ghost predicate MovesRightly(c: Settings, p: Proxy, e: ProxyEvent, p': Proxy) {
    && p'.state == Diagram(c, p, e)
    && JobLaw(c, p, e, p') && CaptureLaw(c, p, e, p') && MemoryLaw(c, p, e, p')
  }

  // ----- Every event obeys -----------------------------------------------------------------

  /** No line both turns the laser off and unlocks, and an empty one does neither. */
  lemma NotBoth(line: string)
    ensures !(TurnsLaserOff(line) && Unlocks(line)) && !TurnsLaserOff("") && !Unlocks("")
  {
    if g, w, r :| LaserOffParts(line, g, w, r) {
      assert (w + r)[0] == w[0];
      LstripGap(g, w + r);
    }
    if g, w, r :| UnlockParts(line, g, w, r) {
      assert (w + r)[0] == w[0];
      LstripGap(g, w + r);
    }
  }

  /** The recognisers' answers for one line, by its text. */
  lemma LineByText(line: string)
    ensures IsProgramEnd(line) <==> EndsProgram(line)
    ensures (IsLaserOff(line) <==> TurnsLaserOff(line)) && (ClearsError(line) <==> Unlocks(line))
    ensures !(TurnsLaserOff(line) && Unlocks(line)) && !TurnsLaserOff("") && !Unlocks("")
  {
    hide IsProgramEnd, EndsProgram, IsLaserOff, TurnsLaserOff, ClearsError, Unlocks;
    ProgramEndByText(line);
    LaserOffByText(line);
    UnlockByText(line);
    NotBoth(line);
  }

  lemma NothingAdded(p: Proxy)
    ensures p.streamer.Some? ==> p.streamer.value.commands + [] == p.streamer.value.commands
    ensures p.buffer.Some? ==> p.buffer.value + [] == p.buffer.value
  {
  }

  lemma CapturedMoves(c: Settings, p: Proxy, e: ProxyEvent)
    requires Equipped(p) && CanHappen(p, e) && e.ClientLine? && p.state == Buffering
    ensures MovesRightly(c, p, e, ProxyStep(c, p, e).0)
  {
    hide IsProgramEnd, EndsProgram, IsLaserOff, TurnsLaserOff, ClearsError, Unlocks, Matches, FileText;
    hide BytesDue, RealTime, Strip;
    LineByText(e.line);
    NothingAdded(p);
  }

  lemma LineMoves(c: Settings, p: Proxy, e: ProxyEvent)
    requires Equipped(p) && CanHappen(p, e) && e.ClientLine? && p.state != Buffering
    ensures MovesRightly(c, p, e, ProxyStep(c, p, e).0)
  {
    hide IsProgramEnd, EndsProgram, IsLaserOff, TurnsLaserOff, ClearsError, Unlocks, Matches, FileText;
    hide BytesDue, RealTime, Strip, JobText;
    LineByText(e.line);
    NothingAdded(p);
  }

  lemma LineAnswers(c: Settings, p: Proxy, e: ProxyEvent)
    requires Equipped(p) && CanHappen(p, e) && e.ClientLine?
    ensures AnswerLaw(c, p, e, ProxyStep(c, p, e).1)
  {
    hide IsProgramEnd, EndsProgram, IsLaserOff, TurnsLaserOff, ClearsError, Unlocks, Matches, FileText;
    hide BytesDue, RealTime, Strip;
    LineByText(e.line);
    assert "ok" + "\r\n" == "ok\r\n" && "error:9" + "\r\n" == "error:9\r\n";
  }

  lemma RealTimeBytes(b: byte)
    ensures IsRealtimeCommand(b) <==> RealTime(b)
  {
  }

  lemma SteeringMoves(c: Settings, p: Proxy, e: ProxyEvent)
    requires Equipped(p) && CanHappen(p, e) && e.RawByte? && JobRuns(p)
    ensures MovesRightly(c, p, e, ProxyStep(c, p, e).0)
  {
    hide IsRealtimeCommand, RealTime, SyntheticStatus, MakeStatusResponse, ALARM_STATUS, EndsJob, JobText;
    RealTimeBytes(e.b);
    NothingAdded(p);
    NamedBytes();
  }

  lemma QuietMoves(c: Settings, p: Proxy, e: ProxyEvent)
    requires Equipped(p) && CanHappen(p, e) && e.RawByte? && !JobRuns(p)
    ensures MovesRightly(c, p, e, ProxyStep(c, p, e).0)
  {
    hide IsRealtimeCommand, RealTime, SyntheticStatus, MakeStatusResponse, ALARM_STATUS, EndsJob, JobText;
    RealTimeBytes(e.b);
    NothingAdded(p);
    NamedBytes();
  }

  lemma ByteAnswers(c: Settings, p: Proxy, e: ProxyEvent)
    requires Equipped(p) && CanHappen(p, e) && e.RawByte?
    ensures AnswerLaw(c, p, e, ProxyStep(c, p, e).1)
  {
    hide IsRealtimeCommand, RealTime, SyntheticStatus, MakeStatusResponse, ALARM_STATUS, EndsJob, JobText;
    RealTimeBytes(e.b);
    NamedBytes();
  }

  lemma NamedBytes()
    ensures RealTime(0x3f) && RealTime(0x21) && RealTime(0x7e) && RealTime(0x18)
  {
  }

  lemma WebMoves(c: Settings, p: Proxy, e: ProxyEvent)
    requires Equipped(p) && CanHappen(p, e) && (e.WebPause? || e.WebResume? || e.WebCancel?)
    ensures MovesRightly(c, p, e, ProxyStep(c, p, e).0)
  {
    hide EndsJob, JobText, LineOutcome, RealTime, Strip;
    NothingAdded(p);
  }

  lemma WebAnswers(c: Settings, p: Proxy, e: ProxyEvent)
    requires Equipped(p) && CanHappen(p, e) && (e.WebPause? || e.WebResume? || e.WebCancel?)
    ensures AnswerLaw(c, p, e, ProxyStep(c, p, e).1)
  {
    hide EndsJob, JobText, LineOutcome, RealTime, Strip;
  }

  lemma StartMoves(c: Settings, p: Proxy, e: ProxyEvent)
    requires Equipped(p) && CanHappen(p, e) && (e.WebStart? || e.Console?)
    ensures MovesRightly(c, p, e, ProxyStep(c, p, e).0)
  {
    hide EndsJob, ClearsError, Unlocks, Strip, FileText, LineOutcome, RealTime, Matches;
    NothingAdded(p);
    if e.Console? { UnlockByText(e.command); }
  }

  lemma StartAnswers(c: Settings, p: Proxy, e: ProxyEvent)
    requires Equipped(p) && CanHappen(p, e) && (e.WebStart? || e.Console?)
    ensures AnswerLaw(c, p, e, ProxyStep(c, p, e).1)
  {
    hide EndsJob, ClearsError, Unlocks, Strip, FileText, LineOutcome, RealTime, Matches;
    if e.Console? { UnlockByText(e.command); }
  }

  lemma TimerMoves(c: Settings, p: Proxy, e: ProxyEvent)
    requires Equipped(p) && CanHappen(p, e) && e.TimerFires?
    ensures MovesRightly(c, p, e, ProxyStep(c, p, e).0)
  {
    hide EndsJob, FileText, IsProgramEnd, LineOutcome, RealTime, Matches, Strip;
    NothingAdded(p);
  }

  lemma OtherMoves(c: Settings, p: Proxy, e: ProxyEvent)
    requires Equipped(p) && CanHappen(p, e)
    requires e.ClientConnected? || e.ClientDisconnected? || e.StreamerDone? || e.StatusSeen?
    ensures MovesRightly(c, p, e, ProxyStep(c, p, e).0)
  {
    hide EndsJob, FileText, IsProgramEnd, LineOutcome, RealTime, Matches, Strip;
    NothingAdded(p);
  }

  lemma OtherAnswers(c: Settings, p: Proxy, e: ProxyEvent)
    requires Equipped(p) && CanHappen(p, e)
    requires e.ClientConnected? || e.ClientDisconnected? || e.TimerFires? || e.StreamerDone? || e.StatusSeen?
    ensures AnswerLaw(c, p, e, ProxyStep(c, p, e).1)
  {
    hide EndsJob, FileText, IsProgramEnd, LineOutcome, RealTime, Matches, Strip;
  }

  /** Every event does exactly what the diagram and the laws say. */
  ghost predicate Obeys(c: Settings, p: Proxy, e: ProxyEvent, after: (Proxy, Out)) {
    MovesRightly(c, p, e, after.0) && AnswerLaw(c, p, e, after.1)
  }

  lemma EventObeys(c: Settings, p: Proxy, e: ProxyEvent)
    requires Equipped(p) && CanHappen(p, e)
    ensures Obeys(c, p, e, ProxyStep(c, p, e))
  {
    hide MovesRightly, AnswerLaw, ProxyStep, Equipped;
    match e
    case ClientLine(_, _, _) =>
      if p.state == Buffering { CapturedMoves(c, p, e); } else { LineMoves(c, p, e); }
      LineAnswers(c, p, e);
    case RawByte(_, _) =>
      if JobRuns(p) { SteeringMoves(c, p, e); } else { QuietMoves(c, p, e); }
      ByteAnswers(c, p, e);
    case WebPause(_) => WebMoves(c, p, e); WebAnswers(c, p, e);
    case WebResume(_) => WebMoves(c, p, e); WebAnswers(c, p, e);
    case WebCancel(_) => WebMoves(c, p, e); WebAnswers(c, p, e);
    case WebStart(_, _) => StartMoves(c, p, e); StartAnswers(c, p, e);
    case Console(_, _) => StartMoves(c, p, e); StartAnswers(c, p, e);
    case TimerFires => TimerMoves(c, p, e); OtherAnswers(c, p, e);
    case _ => OtherMoves(c, p, e); OtherAnswers(c, p, e);
  }
}
