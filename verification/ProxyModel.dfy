/** The proxy state machine as a function: what one event does to ProxyCore and what it sends.
    Handlers are atomic: an idle timer's firing includes the finalizing it schedules. */
module ProxyModel {
  import opened Bytes
  import opened Options
  import opened Text
  import opened Gcode
  import opened GrblMessages
  import opened GrblProtocol
  import opened JobFiles
  import opened StreamerModel

  datatype ProxyState = Disconnected | Passthrough | Buffering | Executing | Paused | Error

  /** Job markers, and whether the web layer holds a serial connection of its own. */
  datatype Settings = Settings(startMarker: string, endMarker: string, webSerial: bool)

  /** A job being streamed: the stored file, and the commands the streamer was given. */
  datatype Running = Running(text: string, commands: seq<Operator>)

  datatype Proxy = Proxy(
    state: ProxyState,
    buffer: Option<seq<string>>,
    timerArmed: bool,
    streamer: Option<Running>,
    serialReadable: bool,
    hasClient: bool,
    userCancelled: bool,
    serialKnown: bool,
    lastStatus: Option<StatusReport>,
    lastError: Option<StreamerResult>)

  /** What reaches the controller; `now` says it is written at once, not with its TCP chunk. */
  datatype Sent = SentByte(b: byte, now: bool) | SentLine(line: string, now: bool) | SentConsole(line: string)

  /** The outputs of one event: text to the client, and what was written to serial. */
  datatype Out = Out(replies: seq<string>, sent: seq<Sent>)

  const OK_REPLY := "ok" + LINE_TERMINATOR
  const LOCKED_REPLY := "error:9" + LINE_TERMINATOR
  const SILENT := Out([], [])

  /** `writes` says whether serial takes what the event writes, `opens` whether the job file
      can be opened, `file` what the web's job file holds if it can be used. */
  datatype ProxyEvent =
    | ClientConnected
    | ClientDisconnected
    | RawByte(b: byte, writes: bool)
    | ClientLine(line: string, opens: bool, writes: bool)
    | TimerFires
    | StreamerDone(result: StreamerResult)
    | StatusSeen(report: StatusReport)
    | WebPause(writes: bool)
    | WebResume(writes: bool)
    | WebCancel(writes: bool)
    | WebStart(file: Option<string>, connected: bool)
    | Console(command: string, writes: bool)

  // ----- Replies ---------------------------------------------------------------------------

  /** The status the proxy answers a '?' with while it does not pass queries on. */
  function SyntheticState(p: Proxy): string {
    if p.state == Paused then "Hold"
    else if p.state == Executing && p.lastStatus.Some? && p.lastStatus.value.state != "" then p.lastStatus.value.state
    else "Run"
  }

  function SyntheticStatus(p: Proxy): string {
    var origin := Position(0.0, 0.0, 0.0);
    if p.lastStatus.None? then MakeStatusResponse(SyntheticState(p), origin, 0, 0)
    else
      var r := p.lastStatus.value;
      var fs := if r.fs.Some? then r.fs.value else (0, 0);
      MakeStatusResponse(SyntheticState(p), if r.mpos.Some? then r.mpos.value else origin, fs.0, fs.1)
  }

  const ALARM_STATUS := MakeStatusResponse("Alarm", Position(0.0, 0.0, 0.0), 0, 0)

  // ----- Events ----------------------------------------------------------------------------

  predicate JobRuns(p: Proxy) {
    p.state == Executing || p.state == Paused
  }

  function OnConnected(p: Proxy): Proxy {
    var p1 := p.(hasClient := true, buffer := if p.state == Buffering then None else p.buffer);
    if JobRuns(p) || p.state == Error then p1
    else p1.(timerArmed := false, state := Passthrough)
  }

  function OnDisconnected(p: Proxy): Proxy {
    var p1 := p.(hasClient := false);
    if p.state == Disconnected then p1
    else if JobRuns(p) then p1.(timerArmed := false)
    else p1.(timerArmed := false, state := Disconnected,
             buffer := if p.state == Buffering then None else p.buffer)
  }

  function SentIf(writes: bool, s: Sent): seq<Sent> {
    if writes then [s] else []
  }

  function Told(p: Proxy, op: Operator): Option<Running> {
    if p.streamer.Some? then Some(p.streamer.value.(commands := p.streamer.value.commands + [op])) else None
  }

  const QUERY: byte := 0x3f
  const HOLD: byte := 0x21
  const RESUME: byte := 0x7e
  const RESET: byte := 0x18

  /** One byte from the client, before lines are assembled. */
  function OnRawByte(p: Proxy, b: byte, writes: bool): (Proxy, Out) {
    var p1 := p.(serialKnown := true);
    if !IsRealtimeCommand(b) then (p1, SILENT)
    else if b == QUERY then
      if p.state == Buffering || JobRuns(p) then (p1, Out([SyntheticStatus(p1)], []))
      else if p.state == Error then (p1, Out([ALARM_STATUS], []))
      else (p1, Out([], SentIf(writes, SentByte(b, false))))
    else
      var out := Out([], SentIf(writes, SentByte(b, false)));
      var now := Out([], SentIf(writes, SentByte(b, true)));
      if p.state == Buffering && b in [HOLD, RESUME, RESET] then
        (p1.(buffer := None, timerArmed := false, state := Passthrough), out)
      else if p.state == Executing && b == HOLD then
        (p1.(streamer := Told(p, Operator.Pause), state := Paused), now)
      else if p.state == Paused && b == RESUME then
        (p1.(streamer := Told(p, Operator.Resume), state := Executing), now)
      else if JobRuns(p) && b == RESET then
        (p1.(streamer := Told(p, Operator.Cancel), userCancelled := true), now)
      else (p1, out)
  }

  /** The lines of the finished job: a program end is added unless the job brought its own. */
  function JobLines(lines: seq<string>, lastLine: Option<string>): seq<string> {
    if lastLine.Some? && IsProgramEnd(lastLine.value) then lines + [lastLine.value]
    else lines + (if lastLine.Some? then [lastLine.value] else []) + ["M2"]
  }

  /** _finalize_job and _start_streamer. */
  function Finalize(p: Proxy, lastLine: Option<string>): Proxy {
    if p.buffer.None? then p
    else
      var text := FileText(JobLines(p.buffer.value, lastLine));
      var p1 := p.(timerArmed := false, buffer := None, userCancelled := false);
      if p.serialKnown
      then p1.(state := Executing, serialReadable := false, streamer := Some(Running(text, [])))
      else p1.(state := Passthrough, serialReadable := true)
  }

  /** One complete line from the client. */
  function OnClientLine(c: Settings, p: Proxy, line: string, opens: bool, writes: bool): (Proxy, Out) {
    match p.state
    case Disconnected => (p, SILENT)
    case Passthrough =>
      if Matches(c.startMarker, line) then
        if opens then (p.(buffer := Some([]), state := Buffering, timerArmed := true), Out([OK_REPLY], []))
        else (p, SILENT)
      else (p, Out([], SentIf(writes, SentLine(line, false))))
    case Buffering =>
      if line == "" then (p.(timerArmed := true), Out([OK_REPLY], []))
      else if Matches(c.endMarker, line) then (Finalize(p, None), Out([OK_REPLY], []))
      else if IsProgramEnd(line) then (Finalize(p, Some(line)), Out([OK_REPLY], []))
      else
        (p.(buffer := if p.buffer.Some? then Some(p.buffer.value + [line]) else None, timerArmed := true),
         Out([OK_REPLY], []))
    case Executing => (p, Out([OK_REPLY], []))
    case Paused => (p, Out([OK_REPLY], []))
    case Error =>
      if line == "" then (p, Out([OK_REPLY], []))
      else if IsLaserOff(line) then
        (p, if writes then Out([], [SentLine(line, true)]) else Out([LOCKED_REPLY], []))
      else if ClearsError(line) then
        (p.(state := Passthrough, lastError := None), Out([], SentIf(writes, SentLine(line, true))))
      else (p, Out([LOCKED_REPLY], []))
  }

  /** _on_idle_timeout, with the finalizing it schedules. */
  function OnTimer(p: Proxy): Proxy {
    var p1 := p.(timerArmed := false);
    if p.state == Buffering then Finalize(p1, None) else p1
  }

  function OnStreamerDone(p: Proxy, r: StreamerResult): Proxy {
    var p1 := p.(streamer := None, serialReadable := true, userCancelled := false);
    if r.completed || p.userCancelled then
      if JobRuns(p) then p1.(state := if p.hasClient then Passthrough else Disconnected) else p1
    else
      var p2 := p1.(lastError := Some(r));
      if JobRuns(p) then p2.(state := Error) else p2
  }

  predicate WebHasSerial(c: Settings, p: Proxy) {
    c.webSerial || p.serialKnown
  }

  function OnWebPause(c: Settings, p: Proxy, writes: bool): (Proxy, Out) {
    if p.state != Executing then (p, SILENT)
    else (p.(streamer := Told(p, Operator.Pause), state := Paused),
          Out([], SentIf(writes && WebHasSerial(c, p), SentByte(HOLD, true))))
  }

  function OnWebResume(c: Settings, p: Proxy, writes: bool): (Proxy, Out) {
    if p.state != Paused then (p, SILENT)
    else (p.(streamer := Told(p, Operator.Resume), state := Executing),
          Out([], SentIf(writes && WebHasSerial(c, p), SentByte(RESUME, true))))
  }

  function OnWebCancel(c: Settings, p: Proxy, writes: bool): (Proxy, Out) {
    if !JobRuns(p) then (p, SILENT)
    else (p.(streamer := Told(p, Operator.Cancel), userCancelled := true),
          Out([], SentIf(writes && WebHasSerial(c, p), SentByte(RESET, true))))
  }

  /** A stored job started from the web: _begin_execution and _start_streamer. */
  function OnWebStart(c: Settings, p: Proxy, file: Option<string>, connected: bool): Proxy {
    if p.state != Passthrough && p.state != Disconnected then p
    else if !WebHasSerial(c, p) || !connected || file.None? then p
    else p.(state := Executing, serialReadable := false, serialKnown := true, userCancelled := false,
            streamer := Some(Running(file.value, [])))
  }

  function OnConsole(c: Settings, p: Proxy, command: string, writes: bool): (Proxy, Out) {
    if p.state !in [Passthrough, Disconnected, Error] || p.hasClient || !WebHasSerial(c, p) || !writes then (p, SILENT)
    else
      var out := Out([], [SentConsole(Strip(command))]);
      if p.state == Error && ClearsError(command)
      then (p.(state := Disconnected, lastError := None), out) else (p, out)
  }

  /** Bytes and lines come from a connected client, the timer fires only while armed, and only
      a running streamer reports. */
  predicate CanHappen(p: Proxy, e: ProxyEvent) {
    match e
    case RawByte(_, _) => p.hasClient
    case ClientLine(_, _, _) => p.hasClient
    case TimerFires => p.timerArmed
    case StreamerDone(_) => p.streamer.Some?
    case _ => true
  }

  /** One event. What cannot happen changes nothing. */
  function ProxyStep(c: Settings, p: Proxy, e: ProxyEvent): (Proxy, Out) {
    if !CanHappen(p, e) then (p, SILENT) else
    match e
    case ClientConnected => (OnConnected(p), SILENT)
    case ClientDisconnected => (OnDisconnected(p), SILENT)
    case RawByte(b, writes) => OnRawByte(p, b, writes)
    case ClientLine(line, opens, writes) => OnClientLine(c, p, line, opens, writes)
    case TimerFires => (OnTimer(p), SILENT)
    case StreamerDone(r) => (OnStreamerDone(p, r), SILENT)
    case StatusSeen(r) => (p.(lastStatus := Some(r)), SILENT)
    case WebPause(writes) => OnWebPause(c, p, writes)
    case WebResume(writes) => OnWebResume(c, p, writes)
    case WebCancel(writes) => OnWebCancel(c, p, writes)
    case WebStart(file, connected) => (OnWebStart(c, p, file, connected), SILENT)
    case Console(command, writes) => OnConsole(c, p, command, writes)
  }

  const FRESH := Proxy(Disconnected, None, false, None, true, false, false, false, None, None)

  function ProxyRun(c: Settings, p: Proxy, es: seq<ProxyEvent>): Proxy
    decreases |es|
  {
    if es == [] then p else ProxyRun(c, ProxyStep(c, p, es[0]).0, es[1..])
  }
}
