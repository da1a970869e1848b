/** The proxy over every order of events: its flags stay consistent, each client line is answered or
    forwarded once, and no handler called during a capture or a job gives a line to the controller. */
module ProxyRuns {
  import opened Bytes
  import opened Options
  import opened Text
  import opened Gcode
  import opened GcodeLaws
  import opened GrblMessages
  import opened GrblProtocol
  import opened ReportLaws
  import opened StreamerModel
  import opened ProxyModel
  import opened ProxyLaws

  /** The last pause or resume told to the streamer was a pause. */
  predicate AskedToPause(commands: seq<Operator>) {
    commands != [] &&
    match commands[|commands| - 1]
    case Pause => true
    case Resume => false
    case Cancel => AskedToPause(commands[..|commands| - 1])
  }

  /** A line that does not end the job. */
  predicate Ordinary(c: Settings, line: string) {
    line != "" && !Matches(c.endMarker, line) && !IsProgramEnd(line)
  }

  /** A buffer is open and the idle timer armed exactly while capturing; serial reads are kept
      from the relay, and a streamer exists, exactly while a job runs; the streamer was paused
      and cancelled exactly as the state and the cancel flag say. */
  ghost predicate Consistent(c: Settings, p: Proxy) {
    && (p.buffer.Some? <==> p.state == Buffering)
    && (p.timerArmed <==> p.state == Buffering)
    && (p.serialReadable <==> !JobRuns(p))
    && (p.streamer.Some? <==> JobRuns(p))
    && (p.state == Disconnected ==> !p.hasClient)
    && (p.state == Passthrough || p.state == Buffering ==> p.hasClient)
    && (p.userCancelled ==> JobRuns(p))
    && (p.streamer.Some? ==>
          && (p.state == Paused <==> AskedToPause(p.streamer.value.commands))
          && (p.userCancelled <==> Cancel in p.streamer.value.commands))
    && (p.buffer.Some? ==> forall l :: l in p.buffer.value ==> Ordinary(c, l))
  }

  lemma ToldPauses(commands: seq<Operator>, op: Operator)
    ensures AskedToPause(commands + [op]) <==> op == Operator.Pause || (op == Cancel && AskedToPause(commands))
    ensures Cancel in commands + [op] <==> op == Cancel || Cancel in commands
  {
    assert (commands + [op])[..|commands|] == commands;
  }

  lemma ByteKeepsConsistent(c: Settings, p: Proxy, b: byte, writes: bool)
    requires Consistent(c, p) && p.hasClient
    ensures Consistent(c, OnRawByte(p, b, writes).0)
  {
    hide IsRealtimeCommand, SyntheticStatus, Ordinary, AskedToPause;
    var p1 := p.(serialKnown := true);
    if JobRuns(p) {
      TellKeepsConsistent(c, p1, Operator.Pause, Paused);
      TellKeepsConsistent(c, p1, Operator.Resume, Executing);
      TellKeepsConsistent(c, p1, Cancel, p.state);
    }
  }

  lemma LineKeepsConsistent(c: Settings, p: Proxy, line: string, opens: bool, writes: bool)
    requires Consistent(c, p) && p.hasClient
    ensures Consistent(c, OnClientLine(c, p, line, opens, writes).0)
  {
    hide Matches, IsProgramEnd, IsLaserOff, ClearsError;
  }

  /** Telling the streamer keeps the mirror of its commands. */
  lemma TellKeepsConsistent(c: Settings, p: Proxy, op: Operator, state: ProxyState)
    requires Consistent(c, p) && JobRuns(p)
    requires state == match op case Pause => Paused case Resume => Executing case Cancel => p.state
    ensures Consistent(c, p.(streamer := Told(p, op), state := state, userCancelled := p.userCancelled || op == Cancel))
  {
    hide Ordinary, AskedToPause;
    ToldPauses(p.streamer.value.commands, op);
  }

  lemma WebKeepsConsistent(c: Settings, p: Proxy, writes: bool)
    requires Consistent(c, p)
    ensures Consistent(c, OnWebPause(c, p, writes).0)
    ensures Consistent(c, OnWebResume(c, p, writes).0)
    ensures Consistent(c, OnWebCancel(c, p, writes).0)
  {
    hide Consistent;
    if JobRuns(p) {
      TellKeepsConsistent(c, p, Operator.Pause, Paused);
      TellKeepsConsistent(c, p, Operator.Resume, Executing);
      TellKeepsConsistent(c, p, Cancel, p.state);
    }
  }

  lemma StepKeepsConsistent(c: Settings, p: Proxy, e: ProxyEvent)
    requires Consistent(c, p)
    ensures Consistent(c, ProxyStep(c, p, e).0)
  {
    hide OnRawByte, OnClientLine, OnWebPause, OnWebResume, OnWebCancel, Ordinary;
    if CanHappen(p, e) {
      match e
      case RawByte(b, writes) => ByteKeepsConsistent(c, p, b, writes);
      case ClientLine(line, opens, writes) => LineKeepsConsistent(c, p, line, opens, writes);
      case WebPause(writes) => WebKeepsConsistent(c, p, writes);
      case WebResume(writes) => WebKeepsConsistent(c, p, writes);
      case WebCancel(writes) => WebKeepsConsistent(c, p, writes);
      case _ =>
    }
  }

  lemma {:induction false} RunKeepsConsistent(c: Settings, p: Proxy, es: seq<ProxyEvent>)
    requires Consistent(c, p)
    ensures Consistent(c, ProxyRun(c, p, es))
    decreases |es|
  {
    hide Consistent, ProxyStep;
    if es == [] {
    } else {
      StepKeepsConsistent(c, p, es[0]);
      RunKeepsConsistent(c, ProxyStep(c, p, es[0]).0, es[1..]);
    }
  }

  /** The proxy is consistent after every sequence of events. */
  lemma EveryProxyRunIsConsistent(c: Settings, es: seq<ProxyEvent>)
    ensures Consistent(c, ProxyRun(c, FRESH, es))
  {
    RunKeepsConsistent(c, FRESH, es);
  }

  /** A streamer's report always ends the job: in ERROR exactly when it neither completed nor
      was cancelled by the operator. */
  lemma ReportEndsTheJob(c: Settings, p: Proxy, r: StreamerResult)
    requires Consistent(c, p) && p.streamer.Some?
    ensures var p' := ProxyStep(c, p, StreamerDone(r)).0;
            && !JobRuns(p') && p'.streamer.None? && p'.serialReadable && !p'.userCancelled
            && (p'.state == Error <==> !r.completed && Cancel !in p.streamer.value.commands)
            && (p'.state == Error ==> p'.lastError == Some(r))
            && (p'.state != Error ==> p'.state == if p.hasClient then Passthrough else Disconnected)
  {
    hide AskedToPause, Ordinary;
  }

  // ----- Replies ---------------------------------------------------------------------------

  /** Acknowledgements among the replies; a status reply is none. */
  function Answers(replies: seq<string>): nat {
    if replies == [] then 0
    else (if replies[0] in [OK_REPLY, LOCKED_REPLY] then 1 else 0) + Answers(replies[1..])
  }

  /** Client lines among what was written to serial. */
  function Lines(sent: seq<Sent>): nat {
    if sent == [] then 0 else (if sent[0].SentLine? then 1 else 0) + Lines(sent[1..])
  }

  /** A client line that is neither answered nor forwarded: the start marker when the job file cannot
      be opened, a line to forward, or the unlocking $X or $H, when the serial write fails. */
  ghost predicate Unanswered(c: Settings, p: Proxy, e: ProxyEvent) {
    e.ClientLine? && p.hasClient &&
    if p.state == Passthrough then
      if Matches(c.startMarker, e.line) then !e.opens else !e.writes
    else p.state == Error && Unlocks(e.line) && !e.writes
  }

  lemma StatusIsNoAnswer(state: string, mpos: Position, feed: int, spindle: int)
    ensures MakeStatusResponse(state, mpos, feed, spindle) !in [OK_REPLY, LOCKED_REPLY]
  {
    assert MakeStatusResponse(state, mpos, feed, spindle)[0] == '<';
  }

  /** A client line gets one answer: an acknowledgement from the proxy, or the controller's own
      to the forwarded line. Nothing else is ever acknowledged or forwarded. */
  lemma OneAnswerEach(c: Settings, p: Proxy, e: ProxyEvent)
    requires Consistent(c, p)
    ensures var out := ProxyStep(c, p, e).1;
            Answers(out.replies) + Lines(out.sent)
            == if !(e.ClientLine? && p.hasClient) || Unanswered(c, p, e) then 0 else 1
  {
    hide Matches, IsLaserOff, TurnsLaserOff, ClearsError, Unlocks, IsProgramEnd, MakeStatusResponse, Finalize;
    hide NormalizeGcode, IsRealtimeCommand;
    if e.ClientLine? { LineByText(e.line); }
    if e.RawByte? {
      ByteAnswersNothing(p, e.b, e.writes);
    }
  }

  lemma ByteAnswersNothing(p: Proxy, b: byte, writes: bool)
    ensures var out := OnRawByte(p, b, writes).1; Answers(out.replies) == 0 && Lines(out.sent) == 0
  {
    hide MakeStatusResponse, IsRealtimeCommand;
    var p1 := p.(serialKnown := true);
    var origin := Position(0.0, 0.0, 0.0);
    StatusIsNoAnswer("Alarm", origin, 0, 0);
    if p1.lastStatus.None? {
      StatusIsNoAnswer(SyntheticState(p1), origin, 0, 0);
    } else {
      var r := p1.lastStatus.value;
      var fs := if r.fs.Some? then r.fs.value else (0, 0);
      StatusIsNoAnswer(SyntheticState(p1), if r.mpos.Some? then r.mpos.value else origin, fs.0, fs.1);
    }
  }

  datatype Tally = Tally(received: nat, answered: nat, forwarded: nat, unanswered: nat)

  /** Counts over a run. */
  ghost function Count(c: Settings, p: Proxy, es: seq<ProxyEvent>): Tally
    decreases |es|
  {
    if es == [] then Tally(0, 0, 0, 0)
    else
      var (p', out) := ProxyStep(c, p, es[0]);
      var t := Count(c, p', es[1..]);
      Tally(t.received + (if es[0].ClientLine? && p.hasClient then 1 else 0),
            t.answered + Answers(out.replies),
            t.forwarded + Lines(out.sent),
            t.unanswered + (if Unanswered(c, p, es[0]) then 1 else 0))
  }

  predicate NothingFails(e: ProxyEvent) {
    e.ClientLine? ==> e.opens && e.writes
  }

  /** Over every run, lines received are lines acknowledged, lines forwarded and lines that went
      unanswered; none goes unanswered while files open and serial writes succeed. */
  lemma {:induction false} RepliesAreConserved(c: Settings, p: Proxy, es: seq<ProxyEvent>)
    requires Consistent(c, p)
    ensures var t := Count(c, p, es); t.received == t.answered + t.forwarded + t.unanswered
    ensures (forall e :: e in es ==> NothingFails(e)) ==> Count(c, p, es).unanswered == 0
    decreases |es|
  {
    hide Consistent, ProxyStep, Answers, Lines;
    if es == [] {
    } else {
      StepKeepsConsistent(c, p, es[0]);
      OneAnswerEach(c, p, es[0]);
      RepliesAreConserved(c, ProxyStep(c, p, es[0]).0, es[1..]);
      if forall e :: e in es ==> NothingFails(e) {
        assert NothingFails(es[0]);
        assert forall e :: e in es[1..] ==> e in es;
      }
    }
  }

  // ----- What reaches the controller -------------------------------------------------------

  /** Line-buffered traffic. Real-time bytes do not enter the controller's line buffer. */
  predicate IsLine(s: Sent) {
    s.SentLine? || s.SentConsole?
  }

  /** A handler called while a job is captured or streamed gives no line to the controller; while
      locked, only laser-off and unlocking lines. A line given earlier may still wait for the end of
      its chunk: ChunkRouting says when it is then written into a capture or a job. */
  lemma NoLineWhileBusy(c: Settings, p: Proxy, e: ProxyEvent)
    requires Consistent(c, p)
    ensures var out := ProxyStep(c, p, e).1;
            forall s :: s in out.sent && IsLine(s) ==>
              && p.state != Buffering && !JobRuns(p)
              && (p.state == Error && s.SentLine? ==> TurnsLaserOff(s.line) || Unlocks(s.line))
              && (s.SentConsole? ==> !p.hasClient)
  {
    hide Matches, IsLaserOff, ClearsError, IsProgramEnd, MakeStatusResponse, Finalize, SyntheticStatus, ALARM_STATUS;
    hide TurnsLaserOff, Unlocks;
    if e.ClientLine? { LineByText(e.line); }
  }

  /** What one event may do to the proxy: it stays consistent, obeys the state diagram and the laws
      of ProxyLaws, answers or forwards a client line once, and while a job is captured or runs gives
      the controller no line. */
  ghost predicate Lawful(c: Settings, p: Proxy, e: ProxyEvent, after: (Proxy, Out)) {
    Consistent(c, p) && CanHappen(p, e) ==>
      var (p', out) := after;
      && Consistent(c, p') && Obeys(c, p, e, after)
      && Answers(out.replies) + Lines(out.sent) == (if !e.ClientLine? || Unanswered(c, p, e) then 0 else 1)
      && ((p.state == Buffering || JobRuns(p)) ==> forall s :: s in out.sent ==> !IsLine(s))
  }

  lemma EventIsLawful(c: Settings, p: Proxy, e: ProxyEvent, after: (Proxy, Out))
    requires CanHappen(p, e) ==> after == ProxyStep(c, p, e)
    ensures Lawful(c, p, e, after)
  {
    hide Consistent, ProxyStep, Unanswered, Obeys, Equipped;
    if Consistent(c, p) && CanHappen(p, e) {
      StepKeepsConsistent(c, p, e);
      ConsistentIsEquipped(c, p);
      EventObeys(c, p, e);
      OneAnswerEach(c, p, e);
      NoLineWhileBusy(c, p, e);
    }
  }

  lemma ConsistentIsEquipped(c: Settings, p: Proxy)
    requires Consistent(c, p)
    ensures Equipped(p)
  {
    hide AskedToPause, Ordinary;
  }

  // ----- Bytes over a run ------------------------------------------------------------------

  /** The bytes written to serial over a run. */
  function BytesWritten(c: Settings, p: Proxy, es: seq<ProxyEvent>): seq<Sent>
    decreases |es|
  {
    if es == [] then []
    else
      var (p', out) := ProxyStep(c, p, es[0]);
      BytesOf(out.sent) + BytesWritten(c, p', es[1..])
  }

  /** The bytes its events bring the controller, by what they ask in the state they find. */
  function BytesAsked(c: Settings, p: Proxy, es: seq<ProxyEvent>): seq<Sent>
    decreases |es|
  {
    if es == [] then []
    else
      (if CanHappen(p, es[0]) then BytesDue(c, p, es[0]) else [])
      + BytesAsked(c, ProxyStep(c, p, es[0]).0, es[1..])
  }

  lemma BytesAsDue(c: Settings, p: Proxy, e: ProxyEvent)
    requires Consistent(c, p) && CanHappen(p, e)
    ensures BytesOf(ProxyStep(c, p, e).1.sent) == BytesDue(c, p, e)
  {
    hide Consistent, ProxyStep, MovesRightly, Equipped, Matches, TurnsLaserOff, Unlocks, RealTime;
    ConsistentIsEquipped(c, p);
    EventObeys(c, p, e);
  }

  /** Over every run the controller gets, in order and each once, exactly the operator's bytes: every
      heeded hold, resume and reset at once, every other real-time byte with its chunk, a ? where no
      capture, job or error is on, and nothing else. */
  lemma {:induction false} BytesAreConserved(c: Settings, p: Proxy, es: seq<ProxyEvent>)
    requires Consistent(c, p)
    ensures BytesWritten(c, p, es) == BytesAsked(c, p, es)
    decreases |es|
  {
    hide Consistent, ProxyStep, BytesDue, BytesOf;
    if es == [] {
    } else {
      if CanHappen(p, es[0]) { BytesAsDue(c, p, es[0]); } else { NothingHappens(c, p, es[0]); }
      StepKeepsConsistent(c, p, es[0]);
      BytesAreConserved(c, ProxyStep(c, p, es[0]).0, es[1..]);
    }
  }

  lemma NothingHappens(c: Settings, p: Proxy, e: ProxyEvent)
    requires !CanHappen(p, e)
    ensures ProxyStep(c, p, e) == (p, SILENT) && BytesOf(SILENT.sent) == []
  {
  }

  lemma ConnectionsAreLawful(c: Settings, p: Proxy)
    ensures Lawful(c, p, ClientConnected, (OnConnected(p), SILENT))
    ensures Lawful(c, p, ClientDisconnected, (OnDisconnected(p), SILENT))
    ensures Lawful(c, p, TimerFires, (OnTimer(p), SILENT))
  {
    hide Lawful, OnConnected, OnDisconnected, OnTimer;
    EventIsLawful(c, p, ClientConnected, (OnConnected(p), SILENT));
    EventIsLawful(c, p, ClientDisconnected, (OnDisconnected(p), SILENT));
    EventIsLawful(c, p, TimerFires, (OnTimer(p), SILENT));
  }

  lemma ByteIsLawful(c: Settings, p: Proxy, b: byte, writes: bool)
    ensures Lawful(c, p, RawByte(b, writes), OnRawByte(p, b, writes))
  {
    hide Lawful, OnRawByte;
    EventIsLawful(c, p, RawByte(b, writes), OnRawByte(p, b, writes));
  }

  lemma LineIsLawful(c: Settings, p: Proxy, line: string, opens: bool, writes: bool)
    ensures Lawful(c, p, ClientLine(line, opens, writes), OnClientLine(c, p, line, opens, writes))
  {
    hide Lawful, OnClientLine;
    EventIsLawful(c, p, ClientLine(line, opens, writes), OnClientLine(c, p, line, opens, writes));
  }

  lemma ReportIsLawful(c: Settings, p: Proxy, r: StreamerResult)
    ensures Lawful(c, p, StreamerDone(r), (OnStreamerDone(p, r), SILENT))
  {
    hide Lawful, OnStreamerDone;
    EventIsLawful(c, p, StreamerDone(r), (OnStreamerDone(p, r), SILENT));
  }

  lemma WebIsLawful(c: Settings, p: Proxy, writes: bool)
    ensures Lawful(c, p, WebPause(writes), OnWebPause(c, p, writes))
    ensures Lawful(c, p, WebResume(writes), OnWebResume(c, p, writes))
    ensures Lawful(c, p, WebCancel(writes), OnWebCancel(c, p, writes))
  {
    hide Lawful, OnWebPause, OnWebResume, OnWebCancel;
    EventIsLawful(c, p, WebPause(writes), OnWebPause(c, p, writes));
    EventIsLawful(c, p, WebResume(writes), OnWebResume(c, p, writes));
    EventIsLawful(c, p, WebCancel(writes), OnWebCancel(c, p, writes));
  }

  lemma StartIsLawful(c: Settings, p: Proxy, file: Option<string>, connected: bool)
    ensures Lawful(c, p, WebStart(file, connected), (OnWebStart(c, p, file, connected), SILENT))
  {
    hide Lawful, OnWebStart;
    EventIsLawful(c, p, WebStart(file, connected), (OnWebStart(c, p, file, connected), SILENT));
  }

  lemma ConsoleIsLawful(c: Settings, p: Proxy, command: string, writes: bool)
    ensures Lawful(c, p, Console(command, writes), OnConsole(c, p, command, writes))
  {
    hide Lawful, OnConsole;
    EventIsLawful(c, p, Console(command, writes), OnConsole(c, p, command, writes));
  }

  // ----- Status queries --------------------------------------------------------------------

  /** The state a query is answered with: Alarm in ERROR, Hold while paused, Run while capturing, and
      during a job the machine's own, as last reported. */
  function ShownState(p: Proxy): string {
    match p.state
    case Error => "Alarm"
    case Paused => "Hold"
    case Executing => if p.lastStatus.Some? then p.lastStatus.value.state else "Run"
    case _ => "Run"
  }

  /** Position, feed and spindle: the last report's, zeros without one and in ERROR. */
  function ShownReport(p: Proxy): StatusReport {
    var r := if p.state == Error then None else p.lastStatus;
    var mpos := if r.Some? && r.value.mpos.Some? then r.value.mpos.value else Position(0.0, 0.0, 0.0);
    var fs := if r.Some? && r.value.fs.Some? then r.value.fs.value else (0, 0);
    PlainReport(ShownState(p), RoundedPosition(mpos), fs.0, fs.1)
  }

  ghost predicate Parsed(r: StatusReport) {
    exists line :: ParseStatusReport(line) == Some(r)
  }

  /** A query during a capture, a job or an error is answered with one status, which reads back as the
      proxy's state and the position, feed and spindle of the last report. */
  lemma QueryShowsTheProxy(c: Settings, p: Proxy, writes: bool)
    requires Consistent(c, p) && p.hasClient && AnswersQueries(p)
    requires p.lastStatus.Some? ==> Parsed(p.lastStatus.value)
    ensures var out := ProxyStep(c, p, RawByte(0x3f, writes)).1;
            && out.sent == [] && |out.replies| == 1
            && ParseStatusReport(out.replies[0]) == Some(ShownReport(p))
  {
    hide MakeStatusResponse, ParseStatusReport, RoundedPosition, Parsed;
    var r := if p.state == Error then None else p.lastStatus;
    var mpos := if r.Some? && r.value.mpos.Some? then r.value.mpos.value else Position(0.0, 0.0, 0.0);
    var fs := if r.Some? && r.value.fs.Some? then r.value.fs.value else (0, 0);
    if p.lastStatus.Some? { ParsedStateIsPlain(p.lastStatus.value); }
    StatusReadsBack(ShownState(p), mpos, fs.0, fs.1);
  }

  lemma ParsedStateIsPlain(r: StatusReport)
    requires Parsed(r)
    ensures r.state != "" && '|' !in r.state && '>' !in r.state
  {
    hide ParseStatusReport;
    var line :| ParseStatusReport(line) == Some(r);
    OnlyReportsRead(line);
    var state, fields :| IsReport(Strip(line), state, fields);
    ReportReads(line, state, fields, ReadsPn(""));
    assert state in [state] + fields;
  }
}
