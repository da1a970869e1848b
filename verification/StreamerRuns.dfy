/** The theorems about streaming runs: for every job, every configuration and every tape of
    serial input, faults, clock readings and operator commands. */
module StreamerRuns {
  import opened Options
  import opened GrblMessages
  import opened StreamerModel
  import opened StreamerLaws
  import opened StreamerWindow
  import opened StreamerTracking

  ghost function RunOf(c: Config, job: Job, t0: real, tape: seq<Event>): Streamer {
    Run(c, Init(job, t0), tape)
  }

  lemma RunInv(c: Config, job: Job, t0: real, tape: seq<Event>)
    ensures Inv(c, RunOf(c, job, t0, tape)) && Suspended(RunOf(c, job, t0, tape).point)
    ensures RunOf(c, job, t0, tape).job == job
  {
    InitInv(c, job, t0);
    RunKeeps(c, Init(job, t0), tape);
    SameJob(c, Init(job, t0), tape);
  }

  lemma {:induction false} AdvanceSameJob(c: Config, s: Streamer, now: real)
    ensures Advance(c, s, now).job == s.job
    decreases |s.pending|, Rank(s.point)
  {
    if Suspended(s.point) {
    } else {
      MicroAdvances(c, s, now);
      if s.point.TakeMessage? && s.pending != [] {
        HandleShape(s.(pending := s.pending[1..]), s.pending[0], now);
      }
      AdvanceSameJob(c, Micro(c, s, now), now);
    }
  }

  lemma {:induction false} SameJob(c: Config, s: Streamer, tape: seq<Event>)
    ensures Run(c, s, tape).job == s.job
    decreases |tape|
  {
    if tape == [] {
    } else {
      match tape[0] {
        case Command(_, _) =>
        case Wake(now, o) => AdvanceSameJob(c, Continue(c, s, now, o), now);
      }
      SameJob(c, Step(c, s, tape[0]), tape[1..]);
    }
  }

  /** Every decision in every run is justified by what was heard and commanded before it. */
  lemma EveryRunIsLawful(c: Config, job: Job, t0: real, tape: seq<Event>)
    ensures Lawful(c, job, RunOf(c, job, t0, tape).history)
  {
    RunInv(c, job, t0, tape);
  }

  // ----- The laws, one by one --------------------------------------------------------------

  /** p is what h was at some moment. */
  ghost predicate Once(p: History, h: History) {
    p == h || (h.Then? && Once(p, h.before))
  }

  lemma {:induction false} LawfulOnce(c: Config, job: Job, p: History, h: History)
    requires Lawful(c, job, h) && Once(p, h)
    ensures Lawful(c, job, p)
  {
    if p == h {
    } else {
      LawfulOnce(c, job, p, h.before);
    }
  }

  lemma LawAt(c: Config, job: Job, t0: real, tape: seq<Event>, b: History, e: Entry)
    requires Once(Then(b, e), RunOf(c, job, t0, tape).history)
    ensures EntryLaw(c, job, FactsOf(b), e)
  {
    EveryRunIsLawful(c, job, t0, tape);
    LawfulOnce(c, job, Then(b, e), RunOf(c, job, t0, tape).history);
  }

  /** The newest entry is a message by which the machine says it has paused itself: a vendor fault,
      or a Hold or Door report outside the operator's pause and the grace after his resume. */
  ghost predicate PausedItself(h: History) {
    !InHold(h) && h.Then? && h.last.Heard? &&
    match h.last.msg
    case VendorFault(_) => true
    case Status(r) => !("Alarm" <= r.state) && SaysHold(r) && !Paused(h) && h.last.now >= GraceUntil(h)
    case _ => false
  }

  /** The newest report says the machine has left its hold, and the hold was proven safe or begun
      by a report, so that no stale Run report ends it. */
  ghost predicate LeftItsHold(h: History) {
    && InHold(h) && NewestReport(h).Some?
    && !("Alarm" <= NewestReport(h).value.state) && SaysResumed(NewestReport(h).value)
    && (Proven(h) || BegunByReport(h))
  }

  lemma MarksFromFacts(h: History)
    ensures CallsForHold(FactsOf(h)) <==> PausedItself(h)
    ensures EndsHold(FactsOf(h)) <==> LeftItsHold(h)
    ensures FactsOf(h).newest.at == NewestTime(h)
  {
  }

  /** A machine hold begins and ends exactly when what was heard and commanded says so, at that
      moment and before anything else; at no await is either still owed. */
  lemma HoldsBeginAndEnd(c: Config, job: Job, t0: real, tape: seq<Event>, b: History, e: Entry)
    requires Once(Then(b, e), RunOf(c, job, t0, tape).history)
    ensures e.HoldBegan? <==> PausedItself(b)
    ensures e.HoldEnded? <==> LeftItsHold(b)
    ensures e.HoldBegan? || e.HoldEnded? ==> e.now == NewestTime(b)
  {
    hide FactsOf;
    LawAt(c, job, t0, tape, b, e);
    MarksFromFacts(b);
  }

  /** A query is asked for, and the pace says it is due. */
  ghost predicate QueryDue(c: Config, h: History) {
    && PollAsked(h).Some?
    && PollAsked(h).value - LastPoll(h) >=
         if InHold(h) && !Proven(h) && 0.1 < c.pollInterval then 0.1 else c.pollInterval
  }

  /** The newest entry is a message after which the run must stop: an error, an alarm, an alarmed
      report, a reset that cancel() did not ask for, or a held report that shows motion after the hold
      was proven safe, or the laser on for the second time in a row. */
  ghost predicate StopDue(h: History) {
    h.Then? && h.last.Heard? &&
    match h.last.msg
    case ErrorReply(_) => true
    case AlarmReply(_) => true
    case Greeting => !CancelAsked(h.before)
    case Status(r) =>
      || "Alarm" <= r.state
      || (InHold(h.before) && StandsHeld(r)
          && ((Proven(h.before) && MovedSince(h.before, r)) || (LastLaserOn(h.before) && LaserOnReport(h.before, r))))
    case _ => false
  }

  lemma StopDueMustStop(h: History)
    requires StopDue(h)
    ensures MustStop(FactsOf(h))
  {
  }

  /** Whenever a run is suspended nothing is left undone: no hold has to begin or end, no query is
      due, no message or exception calls for the run's end. */
  lemma NothingOwed(c: Config, job: Job, t0: real, tape: seq<Event>)
    ensures var h := RunOf(c, job, t0, tape).history;
            !PausedItself(h) && !LeftItsHold(h) && !QueryDue(c, h) && !StopDue(h) && NewestBreak(h).None?
  {
    RunInv(c, job, t0, tape);
    var h := RunOf(c, job, t0, tape).history;
    MarksFromFacts(h);
    if StopDue(h) { StopDueMustStop(h); }
  }

  /** After a turn's checks, when a line comes up and when the poll timer fires, a status query is
      written at once if and only if it is due; none is written otherwise. */
  lemma QueriesKeepPace(c: Config, job: Job, t0: real, tape: seq<Event>, b: History, e: Entry)
    requires Once(Then(b, e), RunOf(c, job, t0, tape).history)
    ensures e.Polled? <==> QueryDue(c, b)
    ensures e.Polled? ==> Some(e.now) == PollAsked(b)
  {
    LawAt(c, job, t0, tape, b, e);
  }

  /** Where the turn that h is in passed its checks. */
  ghost function LastCheck(h: History): History {
    match h
    case Then(b, Polled(_)) => LastCheck(b)
    case Then(b, Ticked(_)) => LastCheck(b)
    case Then(b, Commanded(_, _)) => LastCheck(b)
    case Then(b, ReadBegan(_)) => LastCheck(b)
    case _ => h
  }

  lemma {:induction false} StageShows(c: Config, job: Job, h: History)
    requires Lawful(c, job, h) && StageOf(h) != Unchecked
    ensures var k := LastCheck(h);
            && k.Then? && k.last.Waited? && Once(k, h)
            && InHold(k.before) == InHold(h) && HoldStart(k.before) == HoldStart(h) && Proven(k.before) == Proven(h)
            && LaserOnTwice(k.before) == LaserOnTwice(h) && LastReportTime(k.before) == LastReportTime(h)
  {
    if h.last.Waited? {
    } else {
      StageShows(c, job, h.before);
    }
  }

  /** No message is taken and no read begun before the turn's checks: of cancel(), of the watchdog
      and of the machine hold; and each read has checks of its own. */
  lemma EveryTurnIsChecked(c: Config, job: Job, t0: real, tape: seq<Event>, b: History, e: Entry)
    requires Once(Then(b, e), RunOf(c, job, t0, tape).history) && (e.Heard? || e.ReadBegan?)
    ensures var k := LastCheck(b);
            && k.Then? && k.last.Waited? && Once(k, b)
            && EntryLaw(c, job, FactsOf(k.before), k.last)
            && InHold(k.before) == InHold(b) && HoldStart(k.before) == HoldStart(b) && Proven(k.before) == Proven(b)
            && LaserOnTwice(k.before) == LaserOnTwice(b) && LastReportTime(k.before) == LastReportTime(b)
    ensures e.ReadBegan? ==> StageOf(b) == Checked
  {
    hide EntryLaw;
    EveryRunIsLawful(c, job, t0, tape);
    var h := RunOf(c, job, t0, tape).history;
    LawfulOnce(c, job, Then(b, e), h);
    assert StageOf(b) != Unchecked && (e.ReadBegan? ==> StageOf(b) == Checked) by { TurnAt(c, job, b, e); }
    StageShows(c, job, b);
    LawfulOnce(c, job, LastCheck(b), b);
  }

  lemma TurnAt(c: Config, job: Job, b: History, e: Entry)
    requires EntryLaw(c, job, FactsOf(b), e)
    ensures (e.ReadBegan? ==> StageOf(b) == Checked) && (e.Heard? ==> StageOf(b) != Unchecked)
  {
  }

  /** While the run is suspended in a read, or in a query written beside one, that read was noted,
      so it came after its checks. */
  lemma ReadsAreNoted(c: Config, job: Job, t0: real, tape: seq<Event>)
    ensures var s := RunOf(c, job, t0, tape);
            s.point.AtRead? || s.point == AtPoll(ToSameRead) ==> StageOf(s.history) == InRead
  {
    RunInv(c, job, t0, tape);
  }

  /** Whenever a message is taken or a read begun in a machine hold that was older than the
      confirmation time at the turn's checks, a report since the hold began was held, stationary
      and laser-off, no held report since that one moved, no two in a row showed the laser on, and
      the last report was recent. */
  lemma HoldsAreProven(c: Config, job: Job, t0: real, tape: seq<Event>, b: History, e: Entry)
    requires Once(Then(b, e), RunOf(c, job, t0, tape).history) && (e.Heard? || e.ReadBegan?) && InHold(b)
    ensures var k := LastCheck(b);
            k.Then? && k.last.Waited? &&
            (k.last.now - HoldStart(b) >= c.holdConfirm ==>
               Proven(b) && !LaserOnTwice(b) && k.last.now - LastReportTime(b) < c.stallTimeout)
  {
    EveryTurnIsChecked(c, job, t0, tape, b, e);
  }

  /** Whenever a message is taken or a read begun outside a machine hold, then at the turn's checks
      cancel() had not been asked for and, unless the operator had paused, the last ok, motion,
      resume or hold end was younger than the stall timeout and the longest dwell. */
  lemma WaitsAreBounded(c: Config, job: Job, t0: real, tape: seq<Event>, b: History, e: Entry)
    requires Once(Then(b, e), RunOf(c, job, t0, tape).history) && (e.Heard? || e.ReadBegan?)
    ensures var k := LastCheck(b);
            k.Then? && k.last.Waited? && !CancelAsked(k.before) &&
            (!InHold(b) && !Paused(k.before) ==> k.last.now - LastProgress(k.before) < c.stallTimeout + Dwell(job))
  {
    EveryTurnIsChecked(c, job, t0, tape, b, e);
  }

  /** An Idle resync, and completion with lines unacknowledged, come only after three Idle
      reports with no ok and no other state between, and never while a hold has ended with no ok
      since; a phantom resync only after three reports of a drained buffer since the last ok. */
  lemma ResyncsNeedEvidence(c: Config, job: Job, t0: real, tape: seq<Event>, b: History, e: Entry)
    requires Once(Then(b, e), RunOf(c, job, t0, tape).history)
    requires e.IdleResync? || e.IdleCompletion? || e.PhantomResync?
    ensures e.PhantomResync? ==> DrainedRun(b) >= 3
    ensures !e.PhantomResync? ==> IdleRun(b) >= 3 && !HoldEndedSinceOk(b)
  {
    LawAt(c, job, t0, tape, b, e);
  }

  /** The other way round: no message is taken and no read begun once three Idle reports were
      heard, nor, while lines remain, three reports of a drained buffer with lines in flight;
      so a lost acknowledgement cannot hold a job up while the machine reports. */
  lemma EvidenceIsActedOn(c: Config, job: Job, t0: real, tape: seq<Event>, b: History, e: Entry)
    requires Once(Then(b, e), RunOf(c, job, t0, tape).history) && (e.Heard? || e.ReadBegan?)
    ensures IdleInDrain(b) < 3
    ensures LinesStarted(b) < |job.lines| ==> DrainedInFlight(b) < 3
  {
    hide EntryLaw, Lawful, IdleInDrain, DrainedInFlight, LinesStarted;
    EveryTurnIsChecked(c, job, t0, tape, b, e);
    CountsSinceCheck(b);
    WaitShows(c, job, LastCheck(b).before, LastCheck(b).last);
  }

  lemma WaitShows(c: Config, job: Job, b: History, e: Entry)
    requires EntryLaw(c, job, FactsOf(b), e) && e.Waited?
    ensures IdleInDrain(Then(b, e)) < 3
    ensures LinesStarted(Then(b, e)) < |job.lines| ==> DrainedInFlight(Then(b, e)) < 3
  {
    hide HoldLaw, ProgressLaw, EvidenceLaw, MarkLaw, TurnLaw, PollLaw, BreakLaw, OrderLaw, StopLaw;
  }

  /** Between a turn's checks and its message nothing is counted. */
  lemma {:induction false} CountsSinceCheck(h: History)
    ensures var k := LastCheck(h);
            && IdleInDrain(k) == IdleInDrain(h) && DrainedInFlight(k) == DrainedInFlight(h)
            && LinesStarted(k) == LinesStarted(h)
  {
    if LastCheck(h) == h {
    } else {
      CountsSinceCheck(h.before);
    }
  }

  /** An exception out of an await ends the run at once, and a cancelled result means cancel(), a
      lost link, a cancelled run() or an interrupted fail-safe; cancel() reports the lines sent. */
  lemma BreaksEndTheRun(c: Config, job: Job, t0: real, tape: seq<Event>, b: History, e: Entry)
    requires Once(Then(b, e), RunOf(c, job, t0, tape).history)
    ensures b.Then? && b.last.Broke? && b.last.outcome.Crash? ==>
              e.ResetTried? && e.reason.message == Some(InternalError)
    ensures b.Then? && b.last.Broke? && !b.last.outcome.Crash? ==> e.Reported? && e.result.cancelled
    ensures e.ResetTried? && e.reason.message == Some(InternalError) ==>
              b.Then? && b.last.Broke? && b.last.outcome.Crash?
    ensures e.Reported? && e.result.cancelled ==> CancelAsked(b) || (b.Then? && (b.last.Broke? || b.last.Interrupted?))
    ensures e.Reported? && e.result.cancelled && !(b.Then? && (b.last.Broke? || b.last.Interrupted?)) ==>
              e.result.linesSent == LinesStarted(b) && e.result.totalLines == |job.lines|
  {
    LawAt(c, job, t0, tape, b, e);
  }

  /** A held report that shows motion after the hold was proven safe, or the laser on for the
      second time in a row, is followed at once by the fail-safe. */
  lemma UnsafeHoldsStopAtOnce(c: Config, job: Job, t0: real, tape: seq<Event>, b: History, r: StatusReport, at: real,
                              e: Entry)
    requires Once(Then(Then(b, Heard(Status(r), at)), e), RunOf(c, job, t0, tape).history)
    requires InHold(b) && StandsHeld(r)
    requires (Proven(b) && MovedSince(b, r)) || (LastLaserOn(b) && LaserOnReport(b, r))
    ensures e.ResetTried? && IsFault(e.reason) && e.reason.message.Some?
  {
    LawAt(c, job, t0, tape, Then(b, Heard(Status(r), at)), e);
  }

  /** After an error, an alarm or a reset that cancel() did not ask for, the very next thing is
      the fail-safe; an error is blamed on the line waiting to be sent, or on the last one. */
  lemma FaultsStopAtOnce(c: Config, job: Job, t0: real, tape: seq<Event>, b: History, m: Message, at: real, e: Entry)
    requires Once(Then(Then(b, Heard(m, at)), e), RunOf(c, job, t0, tape).history)
    requires || m.ErrorReply? || m.AlarmReply?
             || (m.Greeting? && !CancelAsked(b)) || (m.Status? && "Alarm" <= m.report.state)
    ensures e.ResetTried? && IsFault(e.reason)
    ensures m.ErrorReply? ==>
              && e.reason.errorCode == Some(m.code)
              && e.reason.errorLine
                 == Some(if LinesStarted(b) < |job.lines| then LinesStarted(b) + 1 else LinesStarted(b))
    ensures m.AlarmReply? ==> e.reason.alarmCode == m.alarm && e.reason.errorCode.None? && e.reason.message.None?
  {
    LawAt(c, job, t0, tape, Then(b, Heard(m, at)), e);
  }

  // ----- The window ------------------------------------------------------------------------

  /** The byte count is the sum of the lines in flight, which are the newest lines sent; the
      window holds, or one oversize line is alone in flight. The run waits for the device exactly
      while the next line does not fit, or, all lines sent, while some are in flight. */
  lemma EveryWindowCounts(c: Config, job: Job, t0: real, tape: seq<Event>)
    ensures var s := RunOf(c, job, t0, tape);
            && |s.win.lengths| <= s.ctl.sent <= |job.lines|
            && s.win.lengths == NewestSent(job.lines, s.ctl.sent, |s.win.lengths|)
            && (Sum(s.win.lengths) <= c.rxSize || |s.win.lengths| <= 1)
            && (s.ctl.sent < |job.lines| ==> s.win.used == Sum(s.win.lengths) >= 0)
            && (s.point.AtWrite? ==>
                  s.ctl.sent < |job.lines|
                  && (s.win.used + LineBytes(job.lines[s.ctl.sent]) <= c.rxSize || s.win.lengths == []))
            && (s.point.AtRead? || (s.point.AtPoll? && s.point.next != ToCheck) ==>
                  if s.ctl.sent < |job.lines| then s.win.used + LineBytes(job.lines[s.ctl.sent]) > c.rxSize
                  else s.win.lengths != [])
  {
    RunInv(c, job, t0, tape);
    var s := RunOf(c, job, t0, tape);
    if s.point.AtWrite? { SumAppend(s.win.lengths, LineBytes(job.lines[s.ctl.sent])); }
  }

  // ----- What was written ------------------------------------------------------------------

  /** The lines whose writes were started, in the order of their writes. */
  ghost function Wire(lines: seq<string>, h: History): seq<string> {
    match h
    case Created(_) => []
    case Then(b, LineStarted(i)) => Wire(lines, b) + if i < |lines| then [lines[i]] else []
    case Then(b, _) => Wire(lines, b)
  }

  lemma {:induction false} WireIsPrefix(c: Config, job: Job, h: History)
    requires Lawful(c, job, h)
    ensures LinesStarted(h) <= |job.lines|
    ensures Wire(job.lines, h) == job.lines[..LinesStarted(h)]
  {
    if h.Created? {
    } else {
      WireIsPrefix(c, job, h.before);
      if h.last.LineStarted? {
        var n := LinesStarted(h.before);
        assert job.lines[..n + 1] == job.lines[..n] + [job.lines[n]];
      }
    }
  }

  /** A run writes the file's lines in order, each once; a completed one writes all of them. */
  lemma EveryRunWritesAPrefix(c: Config, job: Job, t0: real, tape: seq<Event>)
    ensures var s := RunOf(c, job, t0, tape);
            && Wire(job.lines, s.history) <= job.lines
            && (s.point.Finished? && s.point.result.completed ==>
                  Wire(job.lines, s.history) == job.lines && s.point.result.linesSent == |job.lines|)
  {
    RunInv(c, job, t0, tape);
    var s := RunOf(c, job, t0, tape);
    WireIsPrefix(c, job, s.history);
    if s.point.Finished? && s.point.result.completed { CompletedSentAll(c, job, s.history); }
  }

  lemma CompletedSentAll(c: Config, job: Job, h: History)
    requires Lawful(c, job, h) && h.Then? && h.last.Reported? && h.last.result.completed
    ensures LinesStarted(h) == |job.lines| && h.last.result.linesSent == |job.lines|
  {
  }

  // ----- One result, and the fail-safe -----------------------------------------------------

  /** A run reports one result, exactly when it has finished. A fault was preceded by one
      fail-safe reset; completion, cancel() and a lost link by none, unless run() itself was
      cancelled while the fail-safe of a fault was being written. */
  lemma EveryRunReportsOnce(c: Config, job: Job, t0: real, tape: seq<Event>)
    ensures var s := RunOf(c, job, t0, tape);
            && Reports(s.history) == (if s.point.Finished? then 1 else 0)
            && (s.point.Finished? ==>
                  && s.history.Then? && s.history.last == Reported(s.point.result)
                  && (IsFault(s.point.result) ==> Resets(s.history) == 1)
                  && (s.point.result.completed ==> Resets(s.history) == 0)
                  && (s.point.result.cancelled ==>
                        Resets(s.history) == 0
                        || (s.history.before.Then? && s.history.before.last.Interrupted?)))
  {
    RunInv(c, job, t0, tape);
    var s := RunOf(c, job, t0, tape);
    if s.point.Finished? { ReportedOnce(c, job, s.history); }
  }

  lemma ReportedOnce(c: Config, job: Job, h: History)
    requires Lawful(c, job, h) && h.Then? && h.last.Reported?
    ensures h.last.result.completed ==> Resets(h) == 0
    ensures !IsFault(h.last.result) ==> Resets(h) == 0 || (h.before.Then? && h.before.last.Interrupted?)
  {
  }
}
