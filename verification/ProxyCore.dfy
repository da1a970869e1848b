/** ProxyCore and ProxyControl as the program has them: fields that the handlers update, proved
    against the state machine of ProxyModel. */
module ProxyCores {
  import opened Bytes
  import opened Options
  import opened Text
  import opened Gcode
  import opened GrblMessages
  import opened GrblProtocol
  import opened JobBuffers
  import opened StreamerModel
  import opened ProxyModel
  import opened ProxyRuns

  /** The byte comes with the connection it came through. */
  lemma KnownFirst(p: Proxy, b: byte, writes: bool)
    ensures var p1 := p.(serialKnown := true);
            && OnRawByte(p, b, writes) == OnRawByte(p1, b, writes)
            && (!IsRealtimeCommand(b) ==> OnRawByte(p, b, writes) == (p1, SILENT))
  {
    hide IsRealtimeCommand, SyntheticStatus;
  }

  class ProxyCore {
    const cfg: Settings

    var state: ProxyState
    var buffer: JobBuffer?
    var idleTimer: bool
    var streamer: Option<Running>
    var serialReadable: bool
    var hasTcpClient: bool
    var userCancelled: bool
    var serialKnown: bool
    var lastStatus: Option<StatusReport>
    var lastError: Option<StreamerResult>

    ghost predicate Valid()
      reads this, buffer
    {
      buffer != null ==> buffer.Open()
    }

    /** The machine state: an open buffer stands for the lines written to it. */
    ghost function Abs(): Proxy
      reads this, buffer
    {
      Proxy(state, if buffer != null then Some(buffer.lines) else None, idleTimer, streamer, serialReadable,
            hasTcpClient, userCancelled, serialKnown, lastStatus, lastError)
    }

    constructor (cfg: Settings)
      ensures Valid() && Abs() == FRESH && this.cfg == cfg && buffer == null
    {
      this.cfg := cfg;
      state, buffer, idleTimer, streamer, serialReadable := Disconnected, null, false, None, true;
      hasTcpClient, userCancelled, serialKnown, lastStatus, lastError := false, false, false, None, None;
    }

    // ----- Connections ---------------------------------------------------------------------

    method OnClientConnected()
      requires Valid()
      modifies this, buffer
      ensures Valid() && Abs() == OnConnected(old(Abs())) && buffer in {null, old(buffer)}
      ensures Lawful(cfg, old(Abs()), ClientConnected, (Abs(), SILENT))
    {
      hide Lawful, OnTimer, OnDisconnected, JobBuffer.Valid;
      ConnectionsAreLawful(cfg, Abs());
      hasTcpClient := true;
      if state == Buffering && buffer != null {
        buffer.Discard();
        buffer := null;
      }
      if state == Executing || state == Paused || state == Error { return; }
      idleTimer := false;
      state := Passthrough;
    }

    method OnClientDisconnected()
      requires Valid()
      modifies this, buffer
      ensures Valid() && Abs() == OnDisconnected(old(Abs())) && buffer in {null, old(buffer)}
      ensures Lawful(cfg, old(Abs()), ClientDisconnected, (Abs(), SILENT))
    {
      hide Lawful, OnTimer, OnConnected, JobBuffer.Valid;
      ConnectionsAreLawful(cfg, Abs());
      hasTcpClient := false;
      if state == Disconnected { return; }
      if state == Buffering && buffer != null {
        buffer.Discard();
        buffer := null;
      }
      if state == Executing || state == Paused {
        idleTimer := false;
        return;
      }
      idleTimer := false;
      state := Disconnected;
    }

    // ----- Bytes and lines from the client -------------------------------------------------

    method WriteSyntheticStatus() returns (reply: string)
      requires Valid()
      ensures reply == SyntheticStatus(Abs())
    {
      hide MakeStatusResponse;
      var grblState := "Run";
      if state == Paused {
        grblState := "Hold";
      } else if state == Executing {
        if lastStatus.Some? && lastStatus.value.state != "" { grblState := lastStatus.value.state; }
      }
      if lastStatus.Some? {
        var mpos := if lastStatus.value.mpos.Some? then lastStatus.value.mpos.value else Position(0.0, 0.0, 0.0);
        var fs := if lastStatus.value.fs.Some? then lastStatus.value.fs.value else (0, 0);
        return MakeStatusResponse(grblState, mpos, fs.0, fs.1);
      }
      return MakeStatusResponse(grblState, Position(0.0, 0.0, 0.0), 0, 0);
    }

    method Tell(op: Operator)
      requires Valid()
      modifies `streamer
      ensures Abs() == old(Abs()).(streamer := Told(old(Abs()), op))
    {
      if streamer.Some? { streamer := Some(streamer.value.(commands := streamer.value.commands + [op])); }
    }

    /** consumed says whether the byte stays out of the line being assembled. */
    method ProcessRawByte(b: byte, writes: bool) returns (consumed: bool, out: Out)
      requires Valid()
      modifies this, buffer
      ensures Valid() && (Abs(), out) == OnRawByte(old(Abs()), b, writes) && buffer in {null, old(buffer)}
      ensures consumed == IsRealtimeCommand(b)
      ensures Lawful(cfg, old(Abs()), RawByte(b, writes), (Abs(), out))
    {
      hide Lawful, OnRawByte;
      ByteIsLawful(cfg, Abs(), b, writes);
      KnownFirst(Abs(), b, writes);
      hide IsRealtimeCommand, SyntheticStatus;
      serialKnown := true;
      if !IsRealtimeCommand(b) { return false, SILENT; }
      consumed := true;
      if b == QUERY {
        out := AnswerQuery(writes);
      } else {
        out := ActOnByte(b, writes);
      }
    }

    method AnswerQuery(writes: bool) returns (out: Out)
      requires Valid() && serialKnown
      ensures (Abs(), out) == OnRawByte(Abs(), QUERY, writes)
    {
      hide SyntheticStatus;
      if state == Buffering || state == Executing || state == Paused {
        var reply := WriteSyntheticStatus();
        return Out([reply], []);
      }
      if state == Error { return Out([ALARM_STATUS], []); }
      return Out([], SentIf(writes, SentByte(QUERY, false)));
    }

    /** Hold, resume and reset end a capture, or steer a job. */
    method ActOnByte(b: byte, writes: bool) returns (out: Out)
      requires Valid() && serialKnown && IsRealtimeCommand(b) && b != QUERY
      modifies this, buffer
      ensures Valid() && (Abs(), out) == OnRawByte(old(Abs()), b, writes) && buffer in {null, old(buffer)}
    {
      hide IsRealtimeCommand, SyntheticStatus, JobBuffer.Valid;
      if state == Buffering && b in [HOLD, RESUME, RESET] {
        if buffer != null {
          buffer.Discard();
          buffer := null;
        }
        idleTimer := false;
        state := Passthrough;
      }
      if state == Executing && b == HOLD {
        Tell(Operator.Pause);
        state := Paused;
        out := Out([], SentIf(writes, SentByte(b, true)));
        return;
      }
      if state == Paused && b == RESUME {
        Tell(Operator.Resume);
        state := Executing;
        out := Out([], SentIf(writes, SentByte(b, true)));
        return;
      }
      if (state == Executing || state == Paused) && b == RESET {
        userCancelled := true;
        Tell(Operator.Cancel);
        out := Out([], SentIf(writes, SentByte(b, true)));
        return;
      }
      out := Out([], SentIf(writes, SentByte(b, false)));
    }

    method ProcessClientLine(line: string, opens: bool, writes: bool) returns (out: Out)
      requires Valid()
      modifies this, buffer
      ensures Valid() && (Abs(), out) == OnClientLine(cfg, old(Abs()), line, opens, writes)
      ensures buffer == null || buffer == old(buffer) || fresh(buffer)
      ensures Lawful(cfg, old(Abs()), ClientLine(line, opens, writes), (Abs(), out))
    {
      hide Lawful;
      LineIsLawful(cfg, Abs(), line, opens, writes);
      hide Matches, IsProgramEnd, IsLaserOff, ClearsError;
      out := SILENT;
      if state == Passthrough {
        if Matches(cfg.startMarker, line) {
          out := EnterBuffering(opens);
        } else {
          out := Out([], SentIf(writes, SentLine(line, false)));
        }
      } else if state == Executing || state == Paused {
        out := Out([OK_REPLY], []);
      } else if state == Error {
        out := ProcessLineInError(line, writes);
      } else if state == Buffering {
        out := Out([OK_REPLY], []);
        if line == "" {
          idleTimer := true;
          return;
        }
        if Matches(cfg.endMarker, line) {
          FinalizeJob(None);
          return;
        }
        if IsProgramEnd(line) {
          FinalizeJob(Some(line));
          return;
        }
        if buffer != null { buffer.WriteLine(line); }
        idleTimer := true;
      }
    }

    /** Only laser-off, and the commands that clear the error, reach the controller. */
    method ProcessLineInError(line: string, writes: bool) returns (out: Out)
      requires Valid() && state == Error
      modifies `state, `lastError
      ensures Valid() && (Abs(), out) == OnClientLine(cfg, old(Abs()), line, true, writes)
    {
      if line == "" { return Out([OK_REPLY], []); }
      if IsLaserOff(line) {
        if writes { return Out([], [SentLine(line, true)]); }
        return Out([LOCKED_REPLY], []);
      }
      if ClearsError(line) {
        state := Passthrough;
        lastError := None;
        return Out([], SentIf(writes, SentLine(line, true)));
      }
      return Out([LOCKED_REPLY], []);
    }

    method EnterBuffering(opens: bool) returns (out: Out)
      requires Valid() && state == Passthrough
      modifies this
      ensures Valid()
      ensures (Abs(), out) == if opens
              then (old(Abs()).(buffer := Some([]), state := Buffering, timerArmed := true), Out([OK_REPLY], []))
              else (old(Abs()), SILENT)
      ensures buffer == old(buffer) || fresh(buffer)
    {
      var buf := new JobBuffer();
      var ok := buf.OpenFile(opens);
      if !ok { return SILENT; }
      buffer := buf;
      state := Buffering;
      idleTimer := true;
      return Out([OK_REPLY], []);
    }

    // ----- The job -------------------------------------------------------------------------

    method FinalizeJob(lastLine: Option<string>)
      requires Valid()
      modifies this, buffer
      ensures Valid() && Abs() == Finalize(old(Abs()), lastLine) && buffer == null
    {
      hide IsProgramEnd;
      if buffer == null { return; }
      idleTimer := false;
      if lastLine.Some? { buffer.WriteLine(lastLine.value); }
      if lastLine.None? || !IsProgramEnd(lastLine.value) { buffer.WriteLine("M2"); }
      assert buffer.lines == JobLines(old(Abs().buffer.value), lastLine);
      var archived, _ := buffer.Finalize();
      buffer := null;
      state := Executing;
      serialReadable := false;
      StartStreamer(archived.value);
    }

    method StartStreamer(text: string)
      requires Valid()
      modifies `userCancelled, `state, `serialReadable, `streamer
      ensures Valid()
      ensures Abs() == if serialKnown then old(Abs()).(userCancelled := false, streamer := Some(Running(text, [])))
                       else old(Abs()).(userCancelled := false, state := Passthrough, serialReadable := true)
    {
      userCancelled := false;
      if !serialKnown {
        state := Passthrough;
        serialReadable := true;
        return;
      }
      streamer := Some(Running(text, []));
    }

    method OnStreamerDone(result: StreamerResult)
      requires Valid()
      modifies `state, `streamer, `serialReadable, `userCancelled, `lastError
      ensures Valid() && Abs() == ProxyModel.OnStreamerDone(old(Abs()), result) && buffer == old(buffer)
      ensures Lawful(cfg, old(Abs()), StreamerDone(result), (Abs(), SILENT))
    {
      hide Lawful, JobBuffer.Valid, JobBuffer.Open;
      ReportIsLawful(cfg, Abs(), result);
      streamer := None;
      serialReadable := true;
      var idleState := if hasTcpClient then Passthrough else Disconnected;
      var cancelledByUser := userCancelled;
      userCancelled := false;
      if result.completed || cancelledByUser {
        if state == Executing || state == Paused { state := idleState; }
      } else {
        lastError := Some(result);
        if state == Executing || state == Paused { state := Error; }
      }
    }

    method OnIdleTimeout()
      requires Valid()
      modifies this, buffer
      ensures Valid() && Abs() == OnTimer(old(Abs())) && buffer in {null, old(buffer)}
      ensures Lawful(cfg, old(Abs()), TimerFires, (Abs(), SILENT))
    {
      hide Lawful;
      ConnectionsAreLawful(cfg, Abs());
      idleTimer := false;
      if state == Buffering { FinalizeJob(None); }
    }

    method UpdateLastStatus(report: StatusReport)
      requires Valid()
      modifies `lastStatus
      ensures Valid() && Abs() == old(Abs()).(lastStatus := Some(report))
      ensures Lawful(cfg, old(Abs()), StatusSeen(report), (Abs(), SILENT))
    {
      hide Lawful;
      EventIsLawful(cfg, Abs(), StatusSeen(report), (Abs().(lastStatus := Some(report)), SILENT));
      lastStatus := Some(report);
    }
  }

  /** The web layer's commands: they set the core's fields directly. */
  class ProxyControl {
    const core: ProxyCore

    constructor (core: ProxyCore)
      ensures this.core == core
    {
      this.core := core;
    }

    method Pause(writes: bool) returns (ok: bool, out: Out)
      requires core.Valid()
      modifies core
      ensures core.Valid() && (core.Abs(), out) == OnWebPause(core.cfg, old(core.Abs()), writes)
      ensures ok == old(core.state == Executing) && core.buffer == old(core.buffer)
      ensures Lawful(core.cfg, old(core.Abs()), WebPause(writes), (core.Abs(), out))
    {
      hide Lawful;
      WebIsLawful(core.cfg, core.Abs(), writes);
      if core.state != Executing { return false, SILENT; }
      core.Tell(Operator.Pause);
      core.state := Paused;
      return true, Out([], SentIf(writes && (core.cfg.webSerial || core.serialKnown), SentByte(HOLD, true)));
    }

    method Resume(writes: bool) returns (ok: bool, out: Out)
      requires core.Valid()
      modifies core
      ensures core.Valid() && (core.Abs(), out) == OnWebResume(core.cfg, old(core.Abs()), writes)
      ensures ok == old(core.state == Paused) && core.buffer == old(core.buffer)
      ensures Lawful(core.cfg, old(core.Abs()), WebResume(writes), (core.Abs(), out))
    {
      hide Lawful;
      WebIsLawful(core.cfg, core.Abs(), writes);
      if core.state != Paused { return false, SILENT; }
      core.Tell(Operator.Resume);
      core.state := Executing;
      return true, Out([], SentIf(writes && (core.cfg.webSerial || core.serialKnown), SentByte(RESUME, true)));
    }

    method Cancel(writes: bool) returns (ok: bool, out: Out)
      requires core.Valid()
      modifies core
      ensures core.Valid() && (core.Abs(), out) == OnWebCancel(core.cfg, old(core.Abs()), writes)
      ensures ok == old(JobRuns(core.Abs())) && core.buffer == old(core.buffer)
      ensures Lawful(core.cfg, old(core.Abs()), WebCancel(writes), (core.Abs(), out))
    {
      hide Lawful;
      WebIsLawful(core.cfg, core.Abs(), writes);
      if core.state != Executing && core.state != Paused { return false, SILENT; }
      core.userCancelled := true;
      core.Tell(Operator.Cancel);
      return true, Out([], SentIf(writes && (core.cfg.webSerial || core.serialKnown), SentByte(RESET, true)));
    }

    /** A fresh upload: uploaded.gcode must be there, be readable and take its permanent name. */
    method StartUploadedJob(uploaded: Option<string>, legible: bool, archives: bool, connected: bool) returns (ok: bool)
      requires core.Valid()
      modifies core
      ensures core.Valid() && core.buffer == old(core.buffer)
      ensures core.Abs()
           == OnWebStart(core.cfg, old(core.Abs()), if legible && archives then uploaded else None, connected)
      ensures ok == (old(core.state in [Passthrough, Disconnected] && WebHasSerial(core.cfg, core.Abs()))
                     && connected && uploaded.Some? && legible && archives)
      ensures Lawful(core.cfg, old(core.Abs()),
                       WebStart(if legible && archives then uploaded else None, connected), (core.Abs(), SILENT))
    {
      hide Lawful;
      ghost var file := if legible && archives then uploaded else None;
      StartIsLawful(core.cfg, core.Abs(), file, connected);
      if core.state != Passthrough && core.state != Disconnected { return false; }
      if !(core.cfg.webSerial || core.serialKnown) || !connected { return false; }
      if uploaded.None? { return false; }
      if !legible { return false; }
      if !archives { return false; }
      BeginExecution(uploaded.value);
      return true;
    }

    /** A stored job, run again where it is. */
    method StartExistingJob(stored: Option<string>, legible: bool, connected: bool) returns (ok: bool)
      requires core.Valid()
      modifies core
      ensures core.Valid() && core.buffer == old(core.buffer)
      ensures core.Abs() == OnWebStart(core.cfg, old(core.Abs()), if legible then stored else None, connected)
      ensures ok == (old(core.state in [Passthrough, Disconnected] && WebHasSerial(core.cfg, core.Abs()))
                     && connected && stored.Some? && legible)
      ensures Lawful(core.cfg, old(core.Abs()),
                     WebStart(if legible then stored else None, connected), (core.Abs(), SILENT))
    {
      hide Lawful;
      ghost var file := if legible then stored else None;
      StartIsLawful(core.cfg, core.Abs(), file, connected);
      if core.state != Passthrough && core.state != Disconnected { return false; }
      if !(core.cfg.webSerial || core.serialKnown) || !connected { return false; }
      if stored.None? { return false; }
      if !legible { return false; }
      BeginExecution(stored.value);
      return true;
    }

    method BeginExecution(text: string)
      requires core.Valid()
      modifies core
      ensures core.Valid() && core.buffer == old(core.buffer)
      ensures core.Abs() == old(core.Abs()).(serialKnown := true, state := Executing, serialReadable := false,
                                             userCancelled := false, streamer := Some(Running(text, [])))
    {
      core.serialKnown := true;
      core.state := Executing;
      core.serialReadable := false;
      core.StartStreamer(text);
    }

    method SendConsole(command: string, writes: bool) returns (ok: bool, out: Out)
      requires core.Valid()
      modifies core
      ensures core.Valid() && (core.Abs(), out) == OnConsole(core.cfg, old(core.Abs()), command, writes)
      ensures ok == (out != SILENT) && core.buffer == old(core.buffer)
      ensures Lawful(core.cfg, old(core.Abs()), Console(command, writes), (core.Abs(), out))
    {
      hide Lawful;
      ConsoleIsLawful(core.cfg, core.Abs(), command, writes);
      if core.state !in [Passthrough, Disconnected, Error] { return false, SILENT; }
      if core.hasTcpClient { return false, SILENT; }
      if !(core.cfg.webSerial || core.serialKnown) { return false, SILENT; }
      var cmd := Strip(command);
      if !writes { return false, SILENT; }
      if core.state == Error && Upper(cmd) in ["$X", "$H"] {
        core.state := Disconnected;
        core.lastError := None;
      }
      return true, Out([], [SentConsole(cmd)]);
    }
  }
}
