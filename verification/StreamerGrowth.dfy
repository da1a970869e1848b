/** How a history grows: one event only adds to it, and lets out at most one line. */
module StreamerGrowth {
  import opened GrblMessages
  import opened StreamerModel
  import opened StreamerLaws
  import opened StreamerRuns

  /** Lines that resyncs took out of flight unacknowledged. */
  ghost function WrittenOff(h: History): nat {
    match h
    case Created(_) => 0
    case Then(b, PhantomResync) => WrittenOff(b) + InFlight(b)
    case Then(b, IdleResync) => WrittenOff(b) + InFlight(b)
    case Then(b, _) => WrittenOff(b)
  }

  /** The newest entries are a resync and the line it let out. */
  ghost predicate EndsInResync(h: History) {
    h.Then? && h.last.LineStarted? && h.before.Then? && (h.before.last.PhantomResync? || h.before.last.IdleResync?)
  }

  /** h' is h and more, with one more line started if `starts`; only a resync writes lines off, and
      it starts one. */
  ghost predicate Grows(h: History, h': History, starts: bool) {
    && Once(h, h')
    && LinesStarted(h') == LinesStarted(h) + (if starts then 1 else 0)
    && (WrittenOff(h') == WrittenOff(h) || (starts && EndsInResync(h')))
  }

  lemma {:induction false} OnceChains(a: History, b: History, h: History)
    requires Once(a, b) && Once(b, h)
    ensures Once(a, h)
  {
    if b == h {
    } else {
      OnceChains(a, b, h.before);
    }
  }

  lemma GrowsChain(a: History, b: History, h: History, starts: bool)
    requires Grows(a, b, false) && Grows(b, h, starts)
    ensures Grows(a, h, starts)
  {
    hide LinesStarted, WrittenOff, Once, EndsInResync;
    OnceChains(a, b, h);
  }

  lemma NoteGrows(h: History, e: Entry)
    ensures !e.LineStarted? && !e.PhantomResync? && !e.IdleResync? ==> Grows(h, Then(h, e), false)
    ensures Grows(h, h, false)
  {
  }

  lemma StartGrows(h: History, i: nat)
    ensures Grows(h, Then(h, LineStarted(i)), true)
    ensures Grows(h, Then(Then(h, PhantomResync), LineStarted(i)), true)
    ensures Grows(h, Then(Then(h, IdleResync), LineStarted(i)), true)
  {
  }

  lemma MarksGrow(h: History, v: Verdict, now: real)
    ensures Grows(h, MarkHold(h, v, now), false)
  {
    hide Grows;
    var h1 := if v.began then Then(h, HoldBegan(now)) else h;
    NoteGrows(h, HoldBegan(now));
    NoteGrows(h1, HoldEnded(now));
    GrowsChain(h, h1, MarkHold(h, v, now), false);
  }

  lemma FinishGrows(s: Streamer, r: StreamerResult, now: real)
    ensures Grows(s.history, Finish(s, r, now).history, false) && !Finish(s, r, now).point.AtWrite?
  {
    hide Grows;
    NoteGrows(s.history, if IsFault(r) then ResetTried(r, now) else Reported(r));
  }

  lemma ResyncGrows(s: Streamer, r: StatusReport, now: real)
    ensures var s' := ResyncOrWait(s, r, now); Grows(s.history, s'.history, s'.point.AtWrite?)
  {
    hide Grows, PhantomCheck, Finish;
    var (win, phantom) := PhantomCheck(s.win, r);
    NoteGrows(s.history, Reported(BlankResult(s)));
    StartGrows(s.history, s.ctl.sent);
    var s1 := s.(win := win.(idlePolls := win.idlePolls + 1));
    FinishGrows(s1, FaultResult(s1, DroppedAfterHold), now);
  }

  lemma CompleteGrows(s: Streamer, r: StatusReport, now: real)
    ensures var s' := CompleteOrWait(s, r, now); Grows(s.history, s'.history, false) && !s'.point.AtWrite?
  {
    hide Grows, Finish;
    var s1 := s.(win := s.win.(idlePolls := s.win.idlePolls + 1));
    var s2 := Note(s1, IdleCompletion);
    NoteGrows(s.history, IdleCompletion);
    FinishGrows(s1, FaultResult(s1, DroppedAfterHold), now);
    FinishGrows(s2, BlankResult(s1).(completed := true), now);
    GrowsChain(s.history, s2.history, Finish(s2, BlankResult(s1).(completed := true), now).history, false);
  }

  lemma StatusGrows(s: Streamer, r: StatusReport, now: real)
    ensures var s' := StatusInSend(s, r, now); Grows(s.history, s'.history, s'.point.AtWrite?)
    ensures var s' := StatusInTrail(s, r, now); Grows(s.history, s'.history, s'.point.AtWrite?)
  {
    hide Grows, StatusCheck, MarkHold, ResyncOrWait, CompleteOrWait, Finish;
    var v := StatusCheck(s.watch, s.ctl.paused, r, now);
    var s1 := s.(watch := v.watch, history := MarkHold(s.history, v, now));
    MarksGrow(s.history, v, now);
    if v.fault.Some? {
      FinishGrows(s1, FaultResult(s1, v.fault.value), now);
      GrowsChain(s.history, s1.history, Finish(s1, FaultResult(s1, v.fault.value), now).history, false);
    } else {
      ResyncGrows(s1, r, now);
      CompleteGrows(s1, r, now);
      GrowsChain(s.history, s1.history, ResyncOrWait(s1, r, now).history, ResyncOrWait(s1, r, now).point.AtWrite?);
      GrowsChain(s.history, s1.history, CompleteOrWait(s1, r, now).history, false);
    }
  }

  /** A message lets out at most the one line the run is waiting to send. */
  lemma HandleGrows(s: Streamer, m: Message, now: real)
    ensures var s' := Handle(s, m, now); Grows(s.history, s'.history, s'.point.AtWrite?)
  {
    hide Grows, StatusInSend, StatusInTrail, Finish;
    var h := Note(s, Heard(m, now));
    var s' := Handle(s, m, now);
    NoteGrows(s.history, Heard(m, now));
    NoteGrows(h.history, HoldBegan(now));
    assert Grows(h.history, s'.history, s'.point.AtWrite?) by {
      if m.Status? {
        StatusGrows(h, m.report, now);
      } else if m.ErrorReply? || m.AlarmReply? || m.Greeting? {
        EndingsGrow(s, m, now);
      }
    }
    GrowsChain(s.history, h.history, s'.history, s'.point.AtWrite?);
  }

  lemma EndingsGrow(s: Streamer, m: Message, now: real)
    requires m.ErrorReply? || m.AlarmReply? || m.Greeting?
    ensures var s' := Handle(s, m, now); Grows(Then(s.history, Heard(m, now)), s'.history, false) && !s'.point.AtWrite?
  {
    hide Grows;
    var h := Then(s.history, Heard(m, now));
    var s' := Handle(s, m, now);
    if s'.history == h {
      NoteGrows(h, IdleCompletion);
    } else {
      NoteGrows(h, s'.history.last);
    }
  }

  lemma MicroGrows(c: Config, s: Streamer, now: real)
    requires !Suspended(s.point)
    ensures var s' := Micro(c, s, now); Grows(s.history, s'.history, s'.point.AtWrite?)
  {
    hide Grows, Handle, StallCheck, Finish, PollDue, LineBytes;
    NoteGrows(s.history, IdleCompletion);
    StartGrows(s.history, s.ctl.sent);
    match s.point
    case PollBeforeLine =>
      NoteGrows(s.history, Ready(now));
      PollGrows(c, Note(s, Ready(now)), now, ToCheck);
      GrowsChain(s.history, Then(s.history, Ready(now)), Micro(c, s, now).history, false);
    case CheckCancel => FinishGrows(s, CancelledResult(s), now);
    case TrailHead => FinishGrows(s, BlankResult(s).(completed := true), now);
    case WaitHead => WaitGrows(c, s, now);
    case TakeMessage =>
      if s.pending == [] {
        NoteGrows(s.history, ReadBegan(now));
      } else {
        HandleGrows(s.(pending := s.pending[1..]), s.pending[0], now);
      }
    case _ =>
  }

  lemma PollGrows(c: Config, s: Streamer, now: real, next: PollNext)
    ensures var s' := Poll(c, s, now, next); Grows(s.history, s'.history, false) && !s'.point.AtWrite?
  {
    hide Grows, PollDue;
    NoteGrows(s.history, Polled(now));
  }

  lemma WaitGrows(c: Config, s: Streamer, now: real)
    ensures var s' := WaitTurn(c, s, now); Grows(s.history, s'.history, false) && !s'.point.AtWrite?
  {
    hide Grows, StallCheck, Finish, Poll;
    FinishGrows(s, CancelledResult(s), now);
    var (w, fault) := StallCheck(c, Dwell(s.job), s.watch, s.ctl.paused, now);
    var s1 := s.(watch := w);
    if fault.Some? {
      FinishGrows(s1, FaultResult(s1, fault.value), now);
    } else {
      NoteGrows(s.history, Waited(now));
      PollGrows(c, Note(s1, Waited(now)), now, ToRead);
      GrowsChain(s.history, Then(s.history, Waited(now)), Poll(c, Note(s1, Waited(now)), now, ToRead).history, false);
    }
  }

  lemma {:induction false} AdvanceGrows(c: Config, s: Streamer, now: real)
    requires !s.point.AtWrite?
    ensures var s' := Advance(c, s, now); Grows(s.history, s'.history, s'.point.AtWrite?)
    decreases |s.pending|, Rank(s.point)
  {
    hide Grows, Micro;
    if Suspended(s.point) {
      NoteGrows(s.history, IdleCompletion);
    } else {
      var s1 := Micro(c, s, now);
      MicroAdvances(c, s, now);
      MicroGrows(c, s, now);
      AdvanceTurn(c, s, now);
      if s1.point.AtWrite? {
        AdvanceTurn(c, s1, now);
      } else {
        AdvanceGrows(c, s1, now);
        GrowsChain(s.history, s1.history, Advance(c, s1, now).history, Advance(c, s1, now).point.AtWrite?);
      }
    }
  }

  lemma RaiseGrows(s: Streamer, o: Outcome, now: real)
    ensures var s' := Raise(s, o, now); Grows(s.history, s'.history, false) && !s'.point.AtWrite?
  {
    hide Grows, Finish;
    var b := Note(s, Broke(o, now));
    NoteGrows(s.history, Broke(o, now));
    NoteGrows(b.history, Reported(CancelledResult(s)));
    FinishGrows(b, FaultResult(s, InternalError), now);
    GrowsChain(s.history, b.history, Raise(s, o, now).history, false);
  }

  lemma ContinueGrows(c: Config, s: Streamer, now: real, o: Outcome)
    requires Suspended(s.point)
    ensures var s' := Continue(c, s, now, o);
            Grows(s.history, s'.history, false) && (s'.point.AtWrite? <==> s.point.AtWrite? && o.Timer?)
            && (s'.point.AtWrite? ==> s' == s)
  {
    hide Grows, Raise, Poll;
    RaiseGrows(s, o, now);
    NoteGrows(s.history, Began(now));
    match s.point
    case Loading =>
      RaiseGrows(s.(ctl := s.ctl.(total := |s.job.lines|)), Crash, now);
    case AtFailsafe(r) =>
      NoteGrows(s.history, Reported(r));
      NoteGrows(s.history, Interrupted);
      var h := Then(s.history, Interrupted);
      NoteGrows(h, Reported(CancelledResult(s)));
      GrowsChain(s.history, h, Then(h, Reported(CancelledResult(s))), false);
    case AtRead =>
      var s1 := Note(s, Ticked(now));
      NoteGrows(s.history, Ticked(now));
      PollGrows(c, s1, now, ToSameRead);
      GrowsChain(s.history, s1.history, Poll(c, s1, now, ToSameRead).history, false);
    case _ =>
  }

  /** The write that was in progress still is. */
  predicate StillWriting(s: Streamer, e: Event) {
    s.point.AtWrite? && (e.Command? || e.outcome.Timer?)
  }

  /** One event lets out a line exactly when the run then stands at a write it was not at before. */
  lemma StepGrows(c: Config, s: Streamer, e: Event)
    requires Suspended(s.point)
    ensures var s' := Step(c, s, e); Grows(s.history, s'.history, s'.point.AtWrite? && !StillWriting(s, e))
    ensures StillWriting(s, e) ==> Step(c, s, e).point.AtWrite?
  {
    hide Grows, Continue, Advance;
    match e
    case Command(op, now) => NoteGrows(s.history, Commanded(op, now));
    case Wake(now, o) =>
      var s1 := Continue(c, s, now, o);
      ContinueGrows(c, s, now, o);
      if s1.point.AtWrite? {
        AdvanceTurn(c, s1, now);
      } else {
        AdvanceGrows(c, s1, now);
        GrowsChain(s.history, s1.history, Advance(c, s1, now).history, Advance(c, s1, now).point.AtWrite?);
      }
  }
}
