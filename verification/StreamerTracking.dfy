/** The streamer's fields say what the history shows, and every entry it adds is lawful. */
module StreamerTracking {
  import opened Options
  import opened GrblMessages
  import opened StreamerModel
  import opened StreamerLaws
  import opened StreamerWindow

  // ----- What the fields mean --------------------------------------------------------------

  ghost predicate HoldTracks(w: Watch, f: HoldFacts) {
    && w.lastPos == f.position
    && w.lastStatusTime == f.reportTime
    && w.hold == f.on
    && (w.hold ==> w.holdStarted == f.start && w.holdFromStatus == f.byReport
                   && w.laserOnPolls == if f.laserOn then 1 else 0)
    && w.holdConfirmed == f.proven
    && !f.laserOnTwice
    && (f.proven || f.laserOn ==> f.on)
    && w.resumedFromHold == f.endedSinceOk
  }

  ghost predicate PaceTracks(ctl: Control, w: Watch, f: PaceFacts) {
    && ctl.paused == f.paused
    && ctl.cancelled == f.cancelAsked
    && w.graceUntil == f.graceUntil
    && (!ctl.paused && !w.hold && !ctl.cancelled ==> w.lastProgress == f.progress)
  }

  /** Inside a drain loop, where the Idle counter counts. */
  predicate Draining(p: Point) {
    p.SendHead? || p.TrailHead? || p.WaitHead? || p.TakeMessage? || p.AtRead? || (p.AtPoll? && p.next != ToCheck)
  }

  /** The Idle counter is exact inside a drain and starts each drain at zero. */
  ghost predicate IdleTracks(draining: bool, win: Window, f: StreakFacts) {
    && (if draining then win.idlePolls == f.idleInDrain < IDLE_COMPLETE_POLLS else f.idleInDrain == 0)
    && f.idleInDrain <= f.idleRun
  }

  /** While lines remain the drained counter is exact. */
  ghost predicate RxTracks(sending: bool, win: Window, f: StreakFacts) {
    && (sending ==> win.capacity == f.capacity && win.drainedPolls == f.drainedInFlight < IDLE_COMPLETE_POLLS)
    && f.drainedInFlight <= f.drainedRun
  }

  ghost predicate OutputTracks(ctl: Control, win: Window, writing: nat, f: OutputFacts) {
    && f.started == ctl.sent + writing
    && f.inFlight == |win.lengths| + writing
    && ctl.lastPoll == f.pollTime
    && f.resets == 0 && f.reports == 0 && f.resetReason == None
  }

  /** No hold has to begin or end, and no status query has to be written, before anything else. */
  ghost predicate Free(c: Config, f: Facts) {
    !CallsForHold(f) && !EndsHold(f) && !PollOwed(c, f)
  }

  /** What was heard last calls for nothing. */
  ghost predicate Calm(c: Config, f: Facts) {
    Free(c, f) && !MustStop(f) && f.newest.broke.None?
  }

  /** Where a turn of a drain loop stands, and whether the next line has come up. */
  ghost predicate TurnTracks(s: Streamer, f: PaceFacts) {
    && (s.point == AtPoll(ToRead) ==> f.stage == Checked)
    && (s.point.AtRead? || s.point == AtPoll(ToSameRead) ==> f.stage == InRead)
    && (s.point.TakeMessage? ==> f.stage == Checked || (f.stage == InRead && s.pending != []))
    && (Sending(s) && (Draining(s.point) || s.point.CheckCancel? || s.point.AtPoll?) ==> f.lineUp)
  }

  ghost predicate Tracks(c: Config, s: Streamer, f: Facts) {
    TracksMost(c, s, f) && IdleTracks(Draining(s.point), s.win, f.streak) && TurnTracks(s, f.pace)
  }

  ghost predicate TracksMost(c: Config, s: Streamer, f: Facts) {
    && HoldTracks(s.watch, f.hold)
    && PaceTracks(s.ctl, s.watch, f.pace)
    && RxTracks(Sending(s), s.win, f.streak)
    && OutputTracks(s.ctl, s.win, if s.point.AtWrite? then 1 else 0, f.out)
    && Calm(c, f)
    && (s.point.Loading? || s.ctl.total == |s.job.lines|)
  }

  ghost predicate Kept(c: Config, s: Streamer, f: Facts) {
    if s.point.Finished? then f.out.reports == 1 && (IsFault(s.point.result) ==> f.out.resets == 1)
    else if s.point.AtFailsafe? then
      && IsFault(s.point.pendingResult) && f.out.resetReason == Some(s.point.pendingResult)
      && Calm(c, f) && f.out.resets == 1 && f.out.reports == 0
    else Tracks(c, s, f)
  }

  ghost predicate LawKept(c: Config, s: Streamer) {
    && Lawful(c, s.job, s.history)
    && Kept(c, s, FactsOf(s.history))
    && (s.point.Finished? ==> s.history.Then? && s.history.last == Reported(s.point.result))
  }

  ghost predicate Inv(c: Config, s: Streamer) {
    WindowOk(c, s) && LawKept(c, s)
  }

  lemma Extend(c: Config, job: Job, h: History, e: Entry)
    requires Lawful(c, job, h) && EntryLaw(c, job, FactsOf(h), e)
    ensures Lawful(c, job, Then(h, e)) && FactsOf(Then(h, e)) == Learn(FactsOf(h), e)
  {
    FactsLearn(h, e);
  }

  /** Running or suspended, with nothing being written and nothing decided. */
  predicate Between(p: Point) {
    !p.Finished? && !p.AtFailsafe? && !p.AtWrite? && !p.Loading?
  }

  // ----- Ending ----------------------------------------------------------------------------

  lemma FinishLawful(c: Config, s: Streamer, r: StreamerResult, now: real)
    requires Lawful(c, s.job, s.history)
    requires var f := FactsOf(s.history);
             && f.out.resets == 0 && f.out.reports == 0 && f.out.resetReason == None
             && Free(c, f)
             && (IsFault(r) ==> ReasonShown(c, s.job, f, r, now))
             && (IsFault(r) && f.newest.broke.Some? ==> f.newest.broke.value.Crash? && r.message == Some(InternalError))
             && (!IsFault(r) ==> !MustStop(f) && (f.newest.broke.Some? ==> !f.newest.broke.value.Crash? && r.cancelled))
             && (r.cancelled ==> f.pace.cancelAsked || f.newest.broke.Some?)
             && (r.cancelled ==> f.out.started - 1 <= r.linesSent <= f.out.started)
             && (r.cancelled && f.newest.broke.None? ==>
                   r.linesSent == f.out.started && r.totalLines == |s.job.lines|)
             && (r.completed ==> r.linesSent == r.totalLines == |s.job.lines| == f.out.started
                                 && (f.out.inFlight == 0 || f.newest.idleCompletion))
    ensures LawKept(c, Finish(s, r, now))
  {
    hide FactsOf, Lawful;
    Extend(c, s.job, s.history, if IsFault(r) then ResetTried(r, now) else Reported(r));
  }

  lemma RaiseLawful(c: Config, s: Streamer, o: Outcome, now: real)
    requires Lawful(c, s.job, s.history)
    requires var f := FactsOf(s.history);
             && f.out.resets == 0 && f.out.reports == 0 && f.out.resetReason == None && Calm(c, f)
             && s.ctl.sent <= f.out.started <= s.ctl.sent + 1
    ensures LawKept(c, Raise(s, o, now))
  {
    hide FactsOf, Lawful;
    Extend(c, s.job, s.history, Broke(o, now));
    var r := if o.Crash? then FaultResult(s, InternalError) else CancelledResult(s);
    FinishLawful(c, Note(s, Broke(o, now)), r, now);
  }

  // ----- Supervision -----------------------------------------------------------------------

  ghost function LearnMarks(f: Facts, v: Verdict, now: real): Facts {
    var f1 := if v.began then Learn(f, HoldBegan(now)) else f;
    if v.ended then Learn(f1, HoldEnded(now)) else f1
  }

  lemma MarksLawful(c: Config, job: Job, h: History, v: Verdict, now: real)
    requires Lawful(c, job, h)
    requires var f := FactsOf(h);
             && f.newest.message.Some? && f.newest.at == now && f.newest.asked.None? && f.newest.broke.None?
             && (v.began ==> CallsForHold(f))
             && (v.ended ==> EndsHold(if v.began then Learn(f, HoldBegan(now)) else f))
             && (v.began || v.ended ==> !MustStop(f))
    ensures Lawful(c, job, MarkHold(h, v, now))
    ensures FactsOf(MarkHold(h, v, now)) == LearnMarks(FactsOf(h), v, now)
  {
    hide FactsOf, Lawful;
    var h1 := if v.began then Then(h, HoldBegan(now)) else h;
    if v.began { Extend(c, job, h, HoldBegan(now)); }
    if v.ended { Extend(c, job, h1, HoldEnded(now)); }
  }

  lemma LaserReadsAlike(r: StatusReport)
    ensures (LaserPower(r) == Some(true) <==> LaserLit(r)) && (LaserPower(r) == Some(false) <==> LaserDark(r))
  {
    match r.fs
    case Some((feed, power)) =>
      if power > 0 { assert LaserLit(r); } else { assert LaserDark(r); }
    case None =>
      if r.a.Some? { assert ListsSpindle(r) <==> 'S' in r.a.value || 'C' in r.a.value; }
  }

  /** The program reads position, laser and state out of a report as its fields say them. */
  lemma ReportsReadAlike(r: StatusReport)
    ensures ReportedPosition(r) == Place(r)
    ensures (LaserPower(r) == Some(true) <==> LaserLit(r)) && (LaserPower(r) == Some(false) <==> LaserDark(r))
    ensures (Held(r.state) <==> StandsHeld(r)) && (HoldLike(r.state) <==> SaysHold(r))
    ensures (LeavingHold(r.state) <==> SaysResumed(r)) && (StandsHeld(r) ==> !SaysResumed(r))
  {
    LaserReadsAlike(r);
    hide LaserPower, LaserLit, LaserDark;
    assert "Hold" <= r.state <==> |r.state| >= 4 && r.state[..4] == "Hold";
    assert "Door" <= r.state <==> |r.state| >= 4 && r.state[..4] == "Door";
  }

  ghost function HoldEndedFacts(f: HoldFacts): HoldFacts {
    f.(on := false, proven := false, laserOn := false, endedSinceOk := true, byReport := false)
  }

  /** A report during a hold: the hold goes on, or ends, or shows a fault. */
  lemma HoldCheckStep(w: Watch, f: HoldFacts, r: StatusReport, now: real)
    requires HoldTracks(w, f) && w.hold
    ensures var v := HoldCheck(Observe(w, r, now), r, Moved(w, r), now);
            var f1 := HoldAfterReport(f, r, now);
            && !v.began && f1.on && f1.byReport == f.byReport && v.watch.graceUntil == w.graceUntil
            && (v.ended <==> SaysResumed(r) && (f1.proven || f.byReport))
            && (v.fault.None? && !v.ended ==> HoldTracks(v.watch, f1) && v.watch.hold)
            && (v.ended ==> v.fault.None? && HoldTracks(v.watch, HoldEndedFacts(f1))
                            && v.watch.lastProgress == now && !v.watch.hold)
            && (v.fault.None? ==> !f1.laserOnTwice && !(f.proven && StandsHeld(r) && ShowsMotion(f, r)))
            && (v.fault.Some? ==>
                  || (v.fault.value.HoldMoving? && f.proven && StandsHeld(r) && ShowsMotion(f, r))
                  || (v.fault.value.HoldLaserOn? && f1.laserOnTwice))
  {
    hide LaserPower, LaserLit, LaserDark, Held, StandsHeld, LeavingHold, SaysResumed, ReportedPosition, Place;
    ReportsReadAlike(r);
    assert Moved(w, r) == ShowsMotion(f, r);
  }

  /** A report that begins a hold; a Door:3 report begins and ends it at once. */
  lemma HoldBeginStep(w: Watch, f: HoldFacts, r: StatusReport, now: real)
    requires HoldTracks(w, f) && !w.hold
    ensures var v := HoldCheck(EnterHold(Observe(w, r, now), true, now), r, Moved(w, r), now);
            var f1 := HoldAfterReport(f, r, now).(on := true, start := now, proven := ShowsSafe(f, r),
                                                  laserOn := ShowsLaserOn(f, r), laserOnTwice := false,
                                                  byReport := true);
            && v.fault.None? && (v.ended <==> SaysResumed(r)) && v.watch.graceUntil == w.graceUntil
            && (!v.ended ==> HoldTracks(v.watch, f1) && v.watch.hold)
            && (v.ended ==> HoldTracks(v.watch, HoldEndedFacts(f1)) && v.watch.lastProgress == now && !v.watch.hold)
  {
    hide LaserPower, LaserLit, LaserDark, Held, StandsHeld, LeavingHold, SaysResumed, ReportedPosition, Place;
    ReportsReadAlike(r);
    assert Moved(w, r) == ShowsMotion(f, r);
  }

  lemma NoHoldStep(w: Watch, f: HoldFacts, r: StatusReport, now: real)
    requires HoldTracks(w, f) && !w.hold
    ensures HoldTracks(Observe(w, r, now), HoldAfterReport(f, r, now))
    ensures Moved(w, r) == ShowsMotion(f, r) && !f.proven
    ensures !HoldAfterReport(f, r, now).laserOnTwice && !HoldAfterReport(f, r, now).on
  {
    hide LaserPower, LaserLit, LaserDark, Held, StandsHeld, ReportedPosition, Place;
    ReportsReadAlike(r);
  }

  /** What one status report does to supervision. */
  lemma StatusStep(c: Config, s: Streamer, f: Facts, r: StatusReport, now: real)
    requires HoldTracks(s.watch, f.hold) && PaceTracks(s.ctl, s.watch, f.pace)
    requires s.ctl.sent == f.out.started && s.ctl.total == |s.job.lines|
    ensures var v := StatusCheck(s.watch, s.ctl.paused, r, now);
            var f0 := Learn(f, Heard(Status(r), now));
            && (v.fault.None? ==> HoldTracks(v.watch, LearnMarks(f0, v, now).hold)
                                  && PaceTracks(s.ctl, v.watch, LearnMarks(f0, v, now).pace)
                                  && !MustStop(f0) && Calm(c, LearnMarks(f0, v, now)))
            && (v.began ==> CallsForHold(f0))
            && (v.ended ==> EndsHold(if v.began then Learn(f0, HoldBegan(now)) else f0))
            && (v.fault.Some? ==> !v.began && !v.ended && Free(c, f0)
                                  && ReasonShown(c, s.job, f0, FaultResult(s, v.fault.value), now))
  {
    hide HoldTracks, HoldCheck, HoldAfterReport, LaserPower, LaserLit, LaserDark, Held, StandsHeld;
    hide HoldLike, SaysHold, LeavingHold, SaysResumed, ReportedPosition, Place;
    ReportsReadAlike(r);
    if s.watch.hold {
      HoldCheckStep(s.watch, f.hold, r, now);
      HoldOn(s.watch, f.hold);
    } else {
      HoldBeginStep(s.watch, f.hold, r, now);
      NoHoldStep(s.watch, f.hold, r, now);
      HoldOn(s.watch, f.hold);
    }
  }

  lemma HoldOn(w: Watch, f: HoldFacts)
    requires HoldTracks(w, f)
    ensures w.hold == f.on && w.holdConfirmed == f.proven && w.lastPos == f.position
    ensures (w.hold ==> w.holdFromStatus == f.byReport) && w.resumedFromHold == f.endedSinceOk
  {
  }

  // ----- Messages --------------------------------------------------------------------------

  /** About to hear a message. */
  ghost predicate Hearing(c: Config, s: Streamer) {
    && Lawful(c, s.job, s.history) && s.point.TakeMessage?
    && var f := FactsOf(s.history);
       && TracksMost(c, s, f) && IdleTracks(true, s.win, f.streak)
       && f.pace.stage != Unchecked && (Sending(s) ==> f.pace.lineUp)
  }

  /** A report was heard and supervised, and the counters have not taken it in yet: they still
      speak of the facts b before it. */
  ghost predicate Supervised(c: Config, s: Streamer, b: Facts, f: Facts) {
    && HoldTracks(s.watch, f.hold) && PaceTracks(s.ctl, s.watch, f.pace)
    && OutputTracks(s.ctl, s.win, 0, f.out)
    && IdleTracks(true, s.win, b.streak) && RxTracks(Sending(s), s.win, b.streak)
    && Calm(c, f) && (Sending(s) ==> f.pace.lineUp)
    && s.ctl.total == |s.job.lines| && s.point.TakeMessage?
  }

  ghost predicate SameCounts(f: Facts, g: Facts) {
    f.streak == g.streak && f.out == g.out
  }

  lemma SupervisedStep(c: Config, s: Streamer, f: Facts, r: StatusReport, now: real)
    requires TracksMost(c, s, f) && IdleTracks(true, s.win, f.streak) && s.point.TakeMessage?
    requires Sending(s) ==> f.pace.lineUp
    requires StatusCheck(s.watch, s.ctl.paused, r, now).fault.None?
    ensures var v := StatusCheck(s.watch, s.ctl.paused, r, now);
            var f0 := Learn(f, Heard(Status(r), now));
            && Supervised(c, s.(watch := v.watch), f, LearnMarks(f0, v, now))
            && SameCounts(LearnMarks(f0, v, now), f0)
  {
    StatusStep(c, s, f, r, now);
  }

  lemma PhantomStep(w: Window, b: Facts, r: StatusReport, now: real)
    requires IdleTracks(true, w, b.streak) && RxTracks(true, w, b.streak) && (w.used > 0 <==> b.out.inFlight > 0)
    ensures var f0 := Learn(b, Heard(Status(r), now));
            var (win, phantom) := PhantomCheck(w, r);
            && (!phantom ==> RxTracks(true, win, f0.streak))
            && RxTracks(true, win.(drainedPolls := 0), f0.streak.(drainedInFlight := 0))
            && f0.streak.idleInDrain <= f0.streak.idleRun
            && f0.streak.idleInDrain == (if r.state == "Idle" then w.idlePolls + 1 else 0)
            && (phantom ==> f0.streak.drainedRun >= IDLE_COMPLETE_POLLS)
            && win.lengths == w.lengths && win.used == w.used && win.idlePolls == w.idlePolls
  {
  }

  /** Starting a line that is due. */
  lemma StartLawful(c: Config, s: Streamer)
    requires Lawful(c, s.job, s.history) && TracksMost(c, s, FactsOf(s.history)) && Sending(s) && Between(s.point)
    requires FactsOf(s.history).pace.lineUp
    ensures LawKept(c, StartLine(s))
  {
    hide FactsOf, Lawful;
    Extend(c, s.job, s.history, LineStarted(s.ctl.sent));
  }

  /** A justified resync, and the line that follows it. */
  lemma ClearLawful(c: Config, s: Streamer, b: Facts, win: Window, mark: Entry)
    requires Lawful(c, s.job, s.history) && Supervised(c, s, b, FactsOf(s.history)) && Sending(s)
    requires RxTracks(true, win, Learn(FactsOf(s.history), mark).streak)
    requires mark.PhantomResync? || mark.IdleResync?
    requires EvidenceLaw(FactsOf(s.history), mark)
    ensures LawKept(c, StartLine(Note(s.(win := ClearWindow(win)), mark)))
  {
    hide FactsOf, Lawful;
    Extend(c, s.job, s.history, mark);
    StartLawful(c, Note(s.(win := ClearWindow(win), point := NextLine), mark));
  }

  lemma UsedShows(c: Config, s: Streamer)
    requires WindowOk(c, s) && Sending(s)
    ensures s.win.used > 0 <==> s.win.lengths != []
  {
    var lengths := s.win.lengths;
    if lengths != [] {
      assert lengths[0] == LineBytes(s.job.lines[s.ctl.sent - |lengths|]);
    }
  }

  lemma ResyncLawful(c: Config, s: Streamer, b: Facts, r: StatusReport, now: real)
    requires s.win.used > 0 <==> s.win.lengths != []
    requires Lawful(c, s.job, s.history) && Supervised(c, s, b, FactsOf(s.history)) && Sending(s)
    requires SameCounts(FactsOf(s.history), Learn(b, Heard(Status(r), now)))
    ensures LawKept(c, ResyncOrWait(s, r, now))
  {
    hide FactsOf, Lawful;
    PhantomStep(s.win, b, r, now);
    var (win, phantom) := PhantomCheck(s.win, r);
    if phantom {
      ClearLawful(c, s, b, win.(drainedPolls := 0), PhantomResync);
    } else if r.state == "Idle" && win.idlePolls + 1 >= IDLE_COMPLETE_POLLS {
      if s.watch.resumedFromHold {
        var s2 := s.(win := win.(idlePolls := win.idlePolls + 1));
        FinishLawful(c, s2, FaultResult(s2, DroppedAfterHold), now);
      } else {
        ClearLawful(c, s, b, win.(idlePolls := 0), IdleResync);
      }
    }
  }

  /** Sustained Idle in the trailing drain. */
  lemma CompleteLawful(c: Config, s: Streamer, b: Facts, r: StatusReport, now: real)
    requires Lawful(c, s.job, s.history) && Supervised(c, s, b, FactsOf(s.history)) && !Sending(s)
    requires SameCounts(FactsOf(s.history), Learn(b, Heard(Status(r), now))) && s.ctl.sent == |s.job.lines|
    ensures LawKept(c, CompleteOrWait(s, r, now))
  {
    hide FactsOf, Lawful, HoldTracks;
    HoldOn(s.watch, FactsOf(s.history).hold);
    if r.state == "Idle" && s.win.idlePolls + 1 >= IDLE_COMPLETE_POLLS {
      var s2 := s.(win := s.win.(idlePolls := s.win.idlePolls + 1));
      if s2.watch.resumedFromHold {
        FinishLawful(c, s2, FaultResult(s2, DroppedAfterHold), now);
      } else {
        Extend(c, s.job, s.history, IdleCompletion);
        FinishLawful(c, Note(s2, IdleCompletion), BlankResult(s2).(completed := true), now);
      }
    }
  }

  lemma StatusLawful(c: Config, s: Streamer, r: StatusReport, now: real)
    requires Hearing(c, s) && WindowOk(c, s)
    ensures LawKept(c, Handle(s, Status(r), now))
  {
    hide FactsOf, Lawful, StatusCheck, ResyncOrWait, CompleteOrWait, LawKept;
    var f := FactsOf(s.history);
    var h := Note(s, Heard(Status(r), now));
    var v := StatusCheck(s.watch, s.ctl.paused, r, now);
    var s1 := h.(watch := v.watch, history := MarkHold(h.history, v, now));
    Extend(c, s.job, s.history, Heard(Status(r), now));
    StatusStep(c, s, f, r, now);
    if v.fault.Some? {
      FinishLawful(c, s1, FaultResult(s1, v.fault.value), now);
    } else {
      MarksLawful(c, s.job, h.history, v, now);
      SupervisedStep(c, s, f, r, now);
      if Sending(s) {
        UsedShows(c, s);
        ResyncLawful(c, s1, f, r, now);
      } else {
        CompleteLawful(c, s1, f, r, now);
      }
    }
  }

  lemma AckLawful(c: Config, s: Streamer, now: real)
    requires Hearing(c, s)
    ensures LawKept(c, Handle(s, Ok, now))
  {
    hide FactsOf, Lawful;
    Extend(c, s.job, s.history, Heard(Ok, now));
  }

  lemma VendorLawful(c: Config, s: Streamer, text: string, now: real)
    requires Hearing(c, s)
    ensures LawKept(c, Handle(s, VendorFault(text), now))
  {
    hide FactsOf, Lawful;
    var e := Heard(VendorFault(text), now);
    Extend(c, s.job, s.history, e);
    if !s.watch.hold { Extend(c, s.job, Then(s.history, e), HoldBegan(now)); }
  }

  /** An error or alarm reply. */
  lemma ReplyLawful(c: Config, s: Streamer, m: Message, now: real)
    requires Hearing(c, s) && (m.ErrorReply? || m.AlarmReply?)
    ensures LawKept(c, Handle(s, m, now))
  {
    hide FactsOf, Lawful, HoldTracks, LawKept;
    Extend(c, s.job, s.history, Heard(m, now));
    var s' := Handle(s, m, now);
    FinishLawful(c, Note(s, Heard(m, now)).(win := s'.win), s'.point.pendingResult, now);
  }

  lemma OtherLawful(c: Config, s: Streamer, m: Message, now: real)
    requires Hearing(c, s) && (m.BadStatus? || m.Feedback? || m.Greeting? || m.Unknown?)
    ensures LawKept(c, Handle(s, m, now))
  {
    hide FactsOf, Lawful, HoldTracks;
    Extend(c, s.job, s.history, Heard(m, now));
    if m.Greeting? && !s.ctl.cancelled {
      FinishLawful(c, Note(s, Heard(m, now)), FaultResult(s, UnexpectedReset), now);
    }
  }

  lemma HandleLawful(c: Config, s: Streamer, m: Message, now: real)
    requires Hearing(c, s) && WindowOk(c, s)
    ensures LawKept(c, Handle(s, m, now))
  {
    hide FactsOf, Lawful;
    match m
    case Ok => AckLawful(c, s, now);
    case VendorFault(text) => VendorLawful(c, s, text, now);
    case Status(r) => StatusLawful(c, s, r, now);
    case ErrorReply(_) => ReplyLawful(c, s, m, now);
    case AlarmReply(_) => ReplyLawful(c, s, m, now);
    case _ => OtherLawful(c, s, m, now);
  }

  // ----- Program points --------------------------------------------------------------------

  /** A query that has just become a question is written if it is due. */
  lemma PollLawful(c: Config, s: Streamer, now: real, next: PollNext)
    requires Lawful(c, s.job, s.history) && Between(s.point) && s.ctl.total == |s.job.lines|
    requires var f := FactsOf(s.history);
             && HoldTracks(s.watch, f.hold) && PaceTracks(s.ctl, s.watch, f.pace)
             && RxTracks(Sending(s), s.win, f.streak) && IdleTracks(next != ToCheck, s.win, f.streak)
             && OutputTracks(s.ctl, s.win, 0, f.out)
             && f.newest == NOTHING_NEW.(asked := Some(now))
             && (next == ToRead ==> f.pace.stage == Checked) && (next == ToSameRead ==> f.pace.stage == InRead)
             && (Sending(s) ==> f.pace.lineUp)
    ensures LawKept(c, Poll(c, s, now, next))
  {
    hide FactsOf, Lawful;
    assert PollDue(c, s, now) <==> PollOwed(c, FactsOf(s.history));
    if PollDue(c, s, now) { Extend(c, s.job, s.history, Polled(now)); }
  }

  lemma WaitLawful(c: Config, s: Streamer, now: real)
    requires LawKept(c, s) && s.point.WaitHead?
    ensures LawKept(c, WaitTurn(c, s, now))
  {
    hide FactsOf, Lawful;
    var (w, fault) := StallCheck(c, Dwell(s.job), s.watch, s.ctl.paused, now);
    var s1 := s.(watch := w);
    if s.ctl.cancelled {
      FinishLawful(c, s, CancelledResult(s), now);
    } else if fault.Some? {
      FinishLawful(c, s1, FaultResult(s1, fault.value), now);
    } else {
      Extend(c, s.job, s.history, Waited(now));
      PollLawful(c, Note(s1, Waited(now)), now, ToRead);
    }
  }

  /** The next line comes up. */
  lemma ReadyLawful(c: Config, s: Streamer, now: real)
    requires LawKept(c, s) && s.point.PollBeforeLine?
    ensures LawKept(c, Poll(c, Note(s, Ready(now)), now, ToCheck))
  {
    hide FactsOf, Lawful;
    Extend(c, s.job, s.history, Ready(now));
    PollLawful(c, Note(s, Ready(now)), now, ToCheck);
  }

  /** The poll timer fires beside a read. */
  lemma TickLawful(c: Config, s: Streamer, now: real)
    requires LawKept(c, s) && s.point.AtRead?
    ensures LawKept(c, Poll(c, Note(s, Ticked(now)), now, ToSameRead))
  {
    hide FactsOf, Lawful;
    Extend(c, s.job, s.history, Ticked(now));
    PollLawful(c, Note(s, Ticked(now)), now, ToSameRead);
  }

  /** A message from the queue, or a new read. */
  lemma TakeLawful(c: Config, s: Streamer, now: real)
    requires LawKept(c, s) && WindowOk(c, s) && s.point.TakeMessage?
    ensures LawKept(c, Micro(c, s, now))
  {
    hide FactsOf, Lawful, Handle, HoldTracks, Calm, WindowOk;
    if s.pending == [] {
      ReadLawful(c, s, now);
    } else {
      var s1 := s.(pending := s.pending[1..]);
      assert WindowOk(c, s1) by { QueueOutsideWindow(c, s, s.pending[1..]); }
      HandleLawful(c, s1, s.pending[0], now);
    }
  }

  lemma QueueOutsideWindow(c: Config, s: Streamer, pending: seq<Message>)
    requires WindowOk(c, s) && s.point.TakeMessage?
    ensures WindowOk(c, s.(pending := pending))
  {
  }

  lemma ReadLawful(c: Config, s: Streamer, now: real)
    requires LawKept(c, s) && s.point.TakeMessage? && s.pending == []
    ensures LawKept(c, Note(s, ReadBegan(now)).(point := AtRead))
  {
    hide FactsOf, Lawful, HoldTracks;
    Extend(c, s.job, s.history, ReadBegan(now));
  }

  lemma MicroLawful(c: Config, s: Streamer, now: real)
    requires LawKept(c, s) && WindowOk(c, s) && !Suspended(s.point)
    ensures LawKept(c, Micro(c, s, now))
  {
    hide FactsOf, Lawful;
    match s.point
    case TakeMessage => TakeLawful(c, s, now);
    case WaitHead => WaitLawful(c, s, now);
    case PollBeforeLine => ReadyLawful(c, s, now);
    case _ => HeadLawful(c, s, now);
  }

  /** The loop heads: start a line, finish, or go on. */
  lemma HeadLawful(c: Config, s: Streamer, now: real)
    requires LawKept(c, s) && WindowOk(c, s)
    requires s.point.NextLine? || s.point.CheckCancel? || s.point.SendHead? || s.point.TrailHead?
    ensures LawKept(c, Micro(c, s, now))
  {
    hide FactsOf, Lawful, HoldTracks, Calm, LawKept;
    match s.point
    case NextLine => NextLawful(c, s, now);
    case SendHead => SendHeadLawful(c, s, now);
    case TrailHead => TrailHeadLawful(c, s, now);
    case CheckCancel => CancelLawful(c, s, now);
  }

  lemma NextLawful(c: Config, s: Streamer, now: real)
    requires LawKept(c, s) && s.point.NextLine?
    ensures LawKept(c, Micro(c, s, now))
  {
    hide FactsOf, Lawful, HoldTracks, Calm;
  }

  lemma SendHeadLawful(c: Config, s: Streamer, now: real)
    requires LawKept(c, s) && s.point.SendHead?
    ensures LawKept(c, Micro(c, s, now))
  {
    hide FactsOf, Lawful, HoldTracks, Calm;
    if Sending(s) { StartLawful(c, s); }
  }

  lemma TrailHeadLawful(c: Config, s: Streamer, now: real)
    requires LawKept(c, s) && WindowOk(c, s) && s.point.TrailHead?
    ensures LawKept(c, Micro(c, s, now))
  {
    hide FactsOf, Lawful, HoldTracks;
    if s.win.lengths == [] { FinishLawful(c, s, BlankResult(s).(completed := true), now); }
  }

  lemma CancelLawful(c: Config, s: Streamer, now: real)
    requires LawKept(c, s) && s.point.CheckCancel?
    ensures LawKept(c, Micro(c, s, now))
  {
    hide FactsOf, Lawful, HoldTracks;
    if s.ctl.cancelled { FinishLawful(c, s, CancelledResult(s), now); }
  }

  // ----- Events ----------------------------------------------------------------------------

  lemma CommandAllowed(c: Config, s: Streamer, f: Facts, op: Operator, now: real)
    requires Kept(c, s, f) && !s.point.Finished?
    ensures EntryLaw(c, s.job, f, Commanded(op, now))
  {
    hide HoldTracks;
  }

  lemma CommandKept(c: Config, s: Streamer, f: Facts, op: Operator, now: real)
    requires Kept(c, s, f) && !s.point.Finished?
    ensures Kept(c, DoCommand(s, op, now), Learn(f, Commanded(op, now)))
  {
    match op
    case Pause =>
    case Resume =>
    case Cancel =>
  }

  lemma CommandLawful(c: Config, s: Streamer, op: Operator, now: real)
    requires LawKept(c, s) && !s.point.Finished?
    ensures LawKept(c, DoCommand(s, op, now))
  {
    hide FactsOf, Lawful, EntryLaw, Kept, Learn;
    CommandAllowed(c, s, FactsOf(s.history), op, now);
    CommandKept(c, s, FactsOf(s.history), op, now);
    Extend(c, s.job, s.history, Commanded(op, now));
  }

  lemma LoadingLawful(c: Config, s: Streamer, now: real, o: Outcome)
    requires LawKept(c, s) && s.point.Loading?
    ensures LawKept(c, Continue(c, s, now, o))
  {
    hide FactsOf, Lawful;
    var s1 := s.(ctl := s.ctl.(total := |s.job.lines|));
    if !o.Done? { RaiseLawful(c, s, o, now); } else { RaiseLawful(c, s1, Crash, now); }
    Extend(c, s.job, s.history, Began(now));
  }

  lemma FailsafeLawful(c: Config, s: Streamer, r: StreamerResult)
    requires LawKept(c, s) && s.point == AtFailsafe(r)
    ensures LawKept(c, Report(s, r)) && LawKept(c, Report(Note(s, Interrupted), CancelledResult(s)))
  {
    hide FactsOf, Lawful;
    Extend(c, s.job, s.history, Reported(r));
    Extend(c, s.job, s.history, Interrupted);
    Extend(c, s.job, Then(s.history, Interrupted), Reported(CancelledResult(s)));
  }

  lemma ContinueLawful(c: Config, s: Streamer, now: real, o: Outcome)
    requires LawKept(c, s) && WindowOk(c, s)
    ensures LawKept(c, Continue(c, s, now, o))
  {
    hide FactsOf, Lawful;
    match s.point
    case Finished(_) =>
    case AtFailsafe(r) => FailsafeLawful(c, s, r);
    case Loading => LoadingLawful(c, s, now, o);
    case AtRead => if o.Timer? { TickLawful(c, s, now); } else { ResumeLawful(c, s, now, o); }
    case _ => ResumeLawful(c, s, now, o);
  }

  lemma ResumeLawful(c: Config, s: Streamer, now: real, o: Outcome)
    requires LawKept(c, s) && WindowOk(c, s)
    requires !s.point.Finished? && !s.point.AtFailsafe? && !s.point.Loading?
    requires s.point.AtRead? ==> !o.Timer?
    ensures LawKept(c, Continue(c, s, now, o))
  {
    hide FactsOf, Lawful;
    if s.point.AtWrite? && o.Done? {
      WriteLawful(c, s);
    } else {
      hide LineWritten, HoldTracks;
      RaiseLawful(c, s, o, now);
    }
  }

  lemma WriteLawful(c: Config, s: Streamer)
    requires LawKept(c, s) && WindowOk(c, s) && s.point.AtWrite?
    ensures LawKept(c, LineWritten(s))
  {
    hide FactsOf, Lawful, HoldTracks;
  }

  // ----- Whole runs ------------------------------------------------------------------------

  lemma {:induction false} AdvanceKeeps(c: Config, s: Streamer, now: real)
    requires Inv(c, s)
    ensures Inv(c, Advance(c, s, now)) && Suspended(Advance(c, s, now).point)
    decreases |s.pending|, Rank(s.point)
  {
    hide WindowOk, LawKept;
    if Suspended(s.point) {
    } else {
      MicroAdvances(c, s, now);
      MicroKeepsWindow(c, s, now);
      MicroLawful(c, s, now);
      AdvanceKeeps(c, Micro(c, s, now), now);
    }
  }

  lemma StepKeeps(c: Config, s: Streamer, e: Event)
    requires Inv(c, s) && Suspended(s.point)
    ensures Inv(c, Step(c, s, e)) && Suspended(Step(c, s, e).point)
  {
    hide WindowOk, LawKept;
    match e
    case Command(op, now) =>
      if !s.point.Finished? {
        CommandKeepsWindow(c, s, op, now);
        CommandLawful(c, s, op, now);
      }
    case Wake(now, o) =>
      ContinueKeepsWindow(c, s, now, o);
      ContinueLawful(c, s, now, o);
      AdvanceKeeps(c, Continue(c, s, now, o), now);
  }

  lemma {:induction false} RunKeeps(c: Config, s: Streamer, tape: seq<Event>)
    requires Inv(c, s) && Suspended(s.point)
    ensures Inv(c, Run(c, s, tape)) && Suspended(Run(c, s, tape).point)
    decreases |tape|
  {
    hide WindowOk, LawKept;
    if tape == [] {
    } else {
      StepKeeps(c, s, tape[0]);
      RunKeeps(c, Step(c, s, tape[0]), tape[1..]);
    }
  }

  lemma InitInv(c: Config, job: Job, t0: real)
    ensures Inv(c, Init(job, t0)) && Suspended(Init(job, t0).point)
  {
  }
}
