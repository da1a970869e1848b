/** From the client's lines to the controller: what a captured job writes, and how its end shows
    in the proxy. Ties the proxy, the job file and the streamer together. */
module EndToEnd {
  import opened Options
  import opened Text
  import opened Gcode
  import opened GcodeLaws
  import opened JobFiles
  import opened StreamerModel
  import opened StreamerLaws
  import opened StreamerWindow
  import opened StreamerRuns
  import opened ProxyModel
  import opened ProxyLaws
  import opened ProxyRuns

  // ----- Capturing -------------------------------------------------------------------------

  /** An event that leaves a capture going. */
  ghost predicate KeepsCapturing(c: Settings, e: ProxyEvent) {
    match e
    case ClientConnected => false
    case ClientDisconnected => false
    case RawByte(b, _) => b != 0x21 && b != 0x7e && b != 0x18
    case ClientLine(line, _, _) => !EndsJob(c, line)
    case TimerFires => false
    case _ => true
  }

  /** An event that ends a capture and starts the job. */
  ghost predicate EndsCapture(c: Settings, e: ProxyEvent) {
    e.TimerFires? || (e.ClientLine? && EndsJob(c, e.line))
  }

  /** The program-end line the job ends with. */
  function EndLine(c: Settings, e: ProxyEvent): string {
    if e.ClientLine? && !Matches(c.endMarker, e.line) then e.line else "M2"
  }

  /** The lines of the job, as the client sent them; blank sync lines are answered, not kept. */
  function CapturedLines(es: seq<ProxyEvent>): seq<string> {
    if es == [] then []
    else (if es[0].ClientLine? && es[0].line != "" then [es[0].line] else []) + CapturedLines(es[1..])
  }

  lemma CaptureStep(c: Settings, p: Proxy, e: ProxyEvent)
    requires Consistent(c, p) && p.state == Buffering && KeepsCapturing(c, e)
    ensures var p' := ProxyStep(c, p, e).0;
            && p'.state == Buffering && p'.buffer == Some(p.buffer.value + CapturedLines([e]))
            && (p.serialKnown ==> p'.serialKnown)
  {
    hide ProxyStep, Consistent, EndsJob, Matches, JobLaw, AnswerLaw;
    ConsistentIsEquipped(c, p);
    if CanHappen(p, e) { EventObeys(c, p, e); } else { NothingHappens(c, p, e); }
    NoClientNoCapture(c, p);
    assert [e][1..] == [];
    assert p.buffer.value + [] == p.buffer.value;
    assert CapturedLines([e]) == if e.ClientLine? && e.line != "" then [e.line] else [];
  }

  lemma NoClientNoCapture(c: Settings, p: Proxy)
    requires Consistent(c, p) && p.state == Buffering
    ensures p.hasClient && p.timerArmed && p.buffer.Some?
  {
    hide AskedToPause, Ordinary;
  }

  lemma CapturedCons(es: seq<ProxyEvent>)
    requires es != []
    ensures CapturedLines(es) == CapturedLines([es[0]]) + CapturedLines(es[1..])
  {
    assert [es[0]][1..] == [];
    assert CapturedLines([es[0]]) == if es[0].ClientLine? && es[0].line != "" then [es[0].line] else [];
  }

  lemma {:induction false} CaptureHolds(c: Settings, p: Proxy, es: seq<ProxyEvent>)
    requires Consistent(c, p) && p.state == Buffering && forall e :: e in es ==> KeepsCapturing(c, e)
    ensures var p' := ProxyRun(c, p, es);
            && Consistent(c, p') && p'.state == Buffering && p'.buffer == Some(p.buffer.value + CapturedLines(es))
            && (p.serialKnown ==> p'.serialKnown)
    decreases |es|
  {
    hide ProxyStep, KeepsCapturing;
    if es == [] {
      assert p.buffer.value + [] == p.buffer.value;
    } else {
      var p1 := ProxyStep(c, p, es[0]).0;
      CaptureStep(c, p, es[0]);
      StepKeepsConsistent(c, p, es[0]);
      CaptureHolds(c, p1, es[1..]);
      CapturedCons(es);
      assert (p.buffer.value + CapturedLines([es[0]])) + CapturedLines(es[1..])
          == p.buffer.value + (CapturedLines([es[0]]) + CapturedLines(es[1..]));
    }
  }

  lemma EndStep(c: Settings, p: Proxy, e: ProxyEvent)
    requires Consistent(c, p) && p.state == Buffering && p.serialKnown && EndsCapture(c, e)
    ensures var p' := ProxyStep(c, p, e).0;
            && p'.state == Executing
            && p'.streamer == Some(Running(FileText(p.buffer.value + [EndLine(c, e)]), []))
  {
    hide ProxyStep, Consistent, EndsJob, Matches, FileText, AnswerLaw, CaptureLaw;
    ConsistentIsEquipped(c, p);
    NoClientNoCapture(c, p);
    EventObeys(c, p, e);
    hide Equipped, CanHappen;
  }

  lemma {:induction false} RunAppends(c: Settings, p: Proxy, a: seq<ProxyEvent>, b: seq<ProxyEvent>)
    ensures ProxyRun(c, p, a + b) == ProxyRun(c, ProxyRun(c, p, a), b)
    decreases |a|
  {
    hide ProxyStep;
    if a == [] {
      assert a + b == b;
    } else {
      assert (a + b)[1..] == a[1..] + b;
      RunAppends(c, ProxyStep(c, p, a[0]).0, a[1..], b);
    }
  }

  /** A start marker, captured lines and an ending: the stored job is those lines and one
      program end. */
  lemma CaptureStoresTheJob(c: Settings, p: Proxy, start: string, writes: bool, es: seq<ProxyEvent>, end: ProxyEvent)
    requires Consistent(c, p) && p.state == Passthrough && p.serialKnown && Matches(c.startMarker, start)
    requires (forall e :: e in es ==> KeepsCapturing(c, e)) && EndsCapture(c, end)
    ensures var p' := ProxyRun(c, p, [ClientLine(start, true, writes)] + es + [end]);
            && p'.state == Executing
            && p'.streamer == Some(Running(FileText(CapturedLines(es) + [EndLine(c, end)]), []))
  {
    hide ProxyStep, Matches, FileText, KeepsCapturing, EndsCapture, CapturedLines, EndLine;
    var first := ClientLine(start, true, writes);
    StepKeepsConsistent(c, p, first);
    var p1 := ProxyStep(c, p, first).0;
    FirstStep(c, p, start, writes);
    CaptureHolds(c, p1, es);
    assert [] + CapturedLines(es) == CapturedLines(es);
    var p2 := ProxyRun(c, p1, es);
    EndStep(c, p2, end);
    RunAppends(c, p, [first] + es, [end]);
    RunAppends(c, p, [first], es);
    RunOne(c, p, first);
    RunOne(c, p2, end);
  }

  lemma RunOne(c: Settings, p: Proxy, e: ProxyEvent)
    ensures ProxyRun(c, p, [e]) == ProxyStep(c, p, e).0
  {
    hide ProxyStep;
    assert [e][1..] == [];
  }

  lemma FirstStep(c: Settings, p: Proxy, start: string, writes: bool)
    requires Consistent(c, p) && p.state == Passthrough && p.serialKnown && Matches(c.startMarker, start)
    ensures var p' := ProxyStep(c, p, ClientLine(start, true, writes)).0;
            p'.state == Buffering && p'.buffer == Some([]) && p'.serialKnown
  {
    hide Matches;
  }

  // ----- What is streamed ------------------------------------------------------------------

  lemma ProgramEndShows(line: string)
    requires EndsProgram(line)
    ensures !Blank(line)
  {
    hide EndsProgram;
    ProgramEndByText(line);
    StripTrims(line);
  }

  /** No line of the job but the last is a program end, and the streamed lines are the captured
      non-blank lines and that program end exactly when no captured line holds a carriage return
      or line feed. */
  lemma StoredJobStreams(c: Settings, es: seq<ProxyEvent>, end: ProxyEvent)
    requires (forall e :: e in es ==> KeepsCapturing(c, e)) && EndsCapture(c, end)
    ensures EndsProgram(EndLine(c, end)) && forall l :: l in CapturedLines(es) ==> !EndsProgram(l)
    ensures var lines := CapturedLines(es) + [EndLine(c, end)];
            LoadLines(FileText(lines)) == NonBlank(CapturedLines(es)) + [EndLine(c, end)]
            <==> forall l :: l in lines && !Blank(l) ==> OneLine(l)
  {
    hide Matches, EndsProgram, LoadLines, FileText, CapturedLines, OneLine, Blank;
    var captured, last := CapturedLines(es), EndLine(c, end);
    StoredLinesStay(captured + [last]);
    NonBlankAppend(captured, [last]);
    M2IsEnd();
    ProgramEndShows(last);
    assert [last][1..] == [] && NonBlank([last]) == [last];
    CapturedAreOrdinary(c, es);
  }

  lemma M2IsEnd()
    ensures EndsProgram("M2")
  {
    assert EndParts("M2", "", "M2", "");
  }

  lemma CutAtReturn(a: string, b: string)
    requires OneLine(a) && OneLine(b) && b != []
    ensures FileLines(a + "\r" + b + "\n") == [a, b]
  {
    hide FileLines;
    var t := a + "\r" + b + "\n";
    assert t[|a|] == '\r' && t[|a| + 1] == b[0] && forall i :: 0 <= i < |a| ==> t[i] == a[i];
    assert LineLength(t) == |a|;
    assert t[..|a|] == a && t[|a| + 1..] == b + "\n";
    FirstLine(t, |a|, b + "\n");
    OneLineStays(b);
  }

  /** A carriage return inside a captured line is a line end to the streamer: what was one
      ordinary line becomes a program end and more. */
  lemma CarriageReturnSplits()
    ensures !EndsProgram("M2\rG1") && LoadLines(FileText(["M2\rG1"])) == ["M2", "G1"]
  {
    hide FileLines, Blank, EndsProgram;
    ReturnIsNoEnd();
    CutAtReturn("M2", "G1");
    assert ["M2\rG1"][1..] == [] && "M2" + "\r" + "G1" + "\n" == "M2\rG1" + "\n";
    StoredLines(["M2\rG1"]);
    NothingBlank();
    assert ["M2", "G1"][1..] == ["G1"] && ["G1"][1..] == [];
    assert NonBlank(["G1"]) == ["G1"];
  }

  lemma ReturnIsNoEnd()
    ensures !EndsProgram("M2\rG1")
  {
    hide EndsProgram;
    ProgramEndByText("M2\rG1");
    StripTrimmed("M2\rG1");
    assert Upper("M2\rG1")[2] == '\r';
  }

  lemma NothingBlank()
    ensures !Blank("M2") && !Blank("G1") && FileLines("") == []
  {
    assert !IsSpace("M2"[0]) && !IsSpace("G1"[0]);
  }

  lemma {:induction false} CapturedAreOrdinary(c: Settings, es: seq<ProxyEvent>)
    requires forall e :: e in es ==> KeepsCapturing(c, e)
    ensures forall l :: l in CapturedLines(es) ==> l != "" && !EndsJob(c, l)
  {
    if es == [] {
    } else {
      assert KeepsCapturing(c, es[0]);
      CapturedAreOrdinary(c, es[1..]);
    }
  }

  lemma PrefixText(a: seq<string>, b: seq<string>)
    requires a <= b
    ensures FileText(a) <= FileText(b)
  {
    FileTextAppend(a, b[|a|..]);
    assert a + b[|a|..] == b;
  }

  /** From the client to the wire. Whatever happens while a captured job is streamed, the line
      bytes written are a whole-line prefix of the job, and all of it when the job ends completed;
      the job is the captured non-blank lines and one program end, unless a carriage return
      inside a line cuts it. */
  lemma JobReachesTheController(c: Settings, p: Proxy, start: string, writes: bool, es: seq<ProxyEvent>,
                                end: ProxyEvent, g: Config, dwell: Option<real>, t0: real, tape: seq<Event>)
    requires Consistent(c, p) && p.state == Passthrough && p.serialKnown && Matches(c.startMarker, start)
    requires (forall e :: e in es ==> KeepsCapturing(c, e)) && EndsCapture(c, end)
    ensures var p' := ProxyRun(c, p, [ClientLine(start, true, writes)] + es + [end]);
            && p'.streamer.Some?
            && var job := Job(LoadLines(p'.streamer.value.text), dwell);
               var captured, last := CapturedLines(es), EndLine(c, end);
               var s := RunOf(g, job, t0, tape);
               && Wire(job.lines, s.history) <= job.lines
               && FileText(Wire(job.lines, s.history)) <= FileText(job.lines)
               && (s.point.Finished? && s.point.result.completed ==> Wire(job.lines, s.history) == job.lines)
               && EndsProgram(last) && (forall l :: l in captured ==> !EndsProgram(l))
               && (job.lines == NonBlank(captured) + [last]
                   <==> forall l :: l in captured + [last] && !Blank(l) ==> OneLine(l))
  {
    hide ProxyRun, Matches, EndsProgram, LoadLines, FileText, NonBlank, Consistent;
    hide KeepsCapturing, EndsCapture, CapturedLines, EndLine;
    hide Wire, Run, Init, OneLine, Blank;
    CaptureStoresTheJob(c, p, start, writes, es, end);
    StoredJobStreams(c, es, end);
    var text := FileText(CapturedLines(es) + [EndLine(c, end)]);
    var job := Job(LoadLines(text), dwell);
    EveryRunWritesAPrefix(g, job, t0, tape);
    PrefixText(Wire(job.lines, RunOf(g, job, t0, tape).history), job.lines);
  }

  /** A stored job started from the web: the controller gets a whole-line prefix of the stored file's
      lines, and all of them when the job ends completed. */
  lemma StartedJobReachesTheController(c: Settings, p: Proxy, file: string, connected: bool,
                                       g: Config, dwell: Option<real>, t0: real, tape: seq<Event>)
    requires Consistent(c, p) && StartTaken(c, p, WebStart(Some(file), connected))
    ensures var p' := ProxyStep(c, p, WebStart(Some(file), connected)).0;
            && p'.state == Executing && p'.streamer.Some?
            && var job := Job(LoadLines(p'.streamer.value.text), dwell);
               var s := RunOf(g, job, t0, tape);
               && job.lines == LoadLines(file)
               && Wire(job.lines, s.history) <= job.lines
               && FileText(Wire(job.lines, s.history)) <= FileText(job.lines)
               && (s.point.Finished? && s.point.result.completed ==> Wire(job.lines, s.history) == job.lines)
  {
    hide ProxyStep, Consistent, LoadLines, FileText, Wire, Run, Init, AnswerLaw, CaptureLaw, MemoryLaw;
    var e := WebStart(Some(file), connected);
    ConsistentIsEquipped(c, p);
    EventObeys(c, p, e);
    var job := Job(LoadLines(file), dwell);
    EveryRunWritesAPrefix(g, job, t0, tape);
    PrefixText(Wire(job.lines, RunOf(g, job, t0, tape).history), job.lines);
  }

  // ----- The streamer does what the proxy says ---------------------------------------------

  function CommandsOf(tape: seq<Event>): seq<Operator> {
    if tape == [] then []
    else (if tape[0].Command? then [tape[0].op] else []) + CommandsOf(tape[1..])
  }

  lemma {:induction false} AdvanceKeepsFlags(c: Config, s: Streamer, now: real)
    ensures var s' := Advance(c, s, now); s'.ctl.paused == s.ctl.paused && s'.ctl.cancelled == s.ctl.cancelled
    decreases |s.pending|, Rank(s.point)
  {
    hide Handle;
    if Suspended(s.point) {
    } else {
      MicroAdvances(c, s, now);
      if s.point.TakeMessage? && s.pending != [] {
        HandleShape(s.(pending := s.pending[1..]), s.pending[0], now);
      }
      AdvanceKeepsFlags(c, Micro(c, s, now), now);
    }
  }

  lemma StepObeys(c: Config, s: Streamer, e: Event)
    requires !s.point.Finished?
    ensures var s' := Step(c, s, e);
            && s'.ctl.paused == (if e.Command? then e.op == Operator.Pause else s.ctl.paused)
            && s'.ctl.cancelled == (s.ctl.cancelled || (e.Command? && e.op == Cancel))
  {
    hide Advance, Continue;
    if e.Wake? {
      ContinueKeepsFlags(c, s, e.at, e.outcome);
      AdvanceKeepsFlags(c, Continue(c, s, e.at, e.outcome), e.at);
    }
  }

  lemma ContinueKeepsFlags(c: Config, s: Streamer, now: real, o: Outcome)
    ensures var s' := Continue(c, s, now, o); s'.ctl.paused == s.ctl.paused && s'.ctl.cancelled == s.ctl.cancelled
  {
  }

  /** Until it has finished, a run is paused exactly while the newest command is a pause, and
      cancelled once a cancel came. */
  lemma {:induction false} RunObeys(c: Config, s: Streamer, tape: seq<Event>)
    requires !Run(c, s, tape).point.Finished?
    ensures var s' := Run(c, s, tape); var commands := CommandsOf(tape);
            && s'.ctl.paused == (if commands == [] then s.ctl.paused else commands[|commands| - 1] == Operator.Pause)
            && s'.ctl.cancelled == (s.ctl.cancelled || Cancel in commands)
    decreases |tape|
  {
    hide Step;
    if tape == [] {
    } else {
      if s.point.Finished? {
        FinishedStays(c, s, tape);
        assert false;
      }
      StepObeys(c, s, tape[0]);
      var s1, rest := Step(c, s, tape[0]), CommandsOf(tape[1..]);
      RunObeys(c, s1, tape[1..]);
      assert Run(c, s, tape) == Run(c, s1, tape[1..]);
      assert CommandsOf(tape) == (if tape[0].Command? then [tape[0].op] else []) + rest;
    }
  }

  /** Whenever the proxy says PAUSED, and the job was not cancelled, its streamer is paused;
      whenever it says EXECUTING the streamer is not; and both agree on cancelling. */
  lemma StateMatchesStreamer(c: Settings, es: seq<ProxyEvent>, g: Config, job: Job, t0: real, tape: seq<Event>)
    requires var p := ProxyRun(c, FRESH, es); p.streamer.Some? && p.streamer.value.commands == CommandsOf(tape)
    requires !RunOf(g, job, t0, tape).point.Finished?
    ensures var p := ProxyRun(c, FRESH, es); var s := RunOf(g, job, t0, tape);
            && (p.state == Executing ==> !s.ctl.paused)
            && (p.state == Paused && !p.userCancelled ==> s.ctl.paused)
            && (p.userCancelled <==> s.ctl.cancelled)
  {
    hide ProxyRun, Run;
    EveryProxyRunIsConsistent(c, es);
    RunObeys(g, Init(job, t0), tape);
    NotCancelled(CommandsOf(tape));
  }

  lemma NotCancelled(commands: seq<Operator>)
    ensures commands == [] ==> !AskedToPause(commands)
    ensures commands != [] && commands[|commands| - 1] != Cancel ==>
              (AskedToPause(commands) <==> commands[|commands| - 1] == Operator.Pause)
    ensures commands != [] && commands[|commands| - 1] == Cancel ==> Cancel in commands
  {
  }

  /** How a run's end shows: ERROR exactly when the job neither completed nor was cancelled by
      the operator, and for every fault the fail-safe was tried once. */
  lemma JobEndShows(c: Settings, es: seq<ProxyEvent>, g: Config, job: Job, t0: real, tape: seq<Event>)
    requires var p := ProxyRun(c, FRESH, es); p.streamer.Some?
    requires RunOf(g, job, t0, tape).point.Finished?
    ensures var p := ProxyRun(c, FRESH, es); var s := RunOf(g, job, t0, tape);
            var p' := ProxyStep(c, p, StreamerDone(s.point.result)).0;
            && !JobRuns(p') && p'.serialReadable
            && (p'.state == Error <==> !s.point.result.completed && Cancel !in p.streamer.value.commands)
            && (s.point.result.completed ==> Resets(s.history) == 0)
            && (IsFault(s.point.result) ==> Resets(s.history) == 1 && !s.point.result.completed)
  {
    hide ProxyRun, ProxyStep, Run;
    EveryProxyRunIsConsistent(c, es);
    var s := RunOf(g, job, t0, tape);
    ReportEndsTheJob(c, ProxyRun(c, FRESH, es), s.point.result);
    EveryRunReportsOnce(g, job, t0, tape);
  }
}
