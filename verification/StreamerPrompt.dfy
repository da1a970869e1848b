/** How soon pause() and cancel() take effect. */
module StreamerPrompt {
  import opened GrblMessages
  import opened StreamerModel
  import opened StreamerLaws
  import opened StreamerWindow
  import opened StreamerTracking
  import opened StreamerRuns
  import opened StreamerGrowth

  // ----- After cancel() --------------------------------------------------------------------

  /** Lines that can still be started once cancel() was called: one, inside the send loop's drain,
      where room may appear before the flag is looked at again. */
  ghost function AheadCancelled(s: Streamer): nat {
    if Draining(s.point) && Sending(s) then 1 else 0
  }

  /** Lines that can still be started while the operator's pause lasts. */
  ghost function AheadPaused(s: Streamer): nat {
    if Sending(s) && (Draining(s.point) || s.point.PollBeforeLine? || s.point.CheckCancel?
                      || s.point == AtPoll(ToCheck) || s.point == AtResume(true))
    then 1 else 0
  }

  ghost predicate Tighter(s: Streamer, s': Streamer) {
    && (s.ctl.cancelled ==>
          s'.ctl.cancelled
          && LinesStarted(s'.history) + AheadCancelled(s') <= LinesStarted(s.history) + AheadCancelled(s))
    && (s.ctl.paused && s'.ctl.paused ==>
          LinesStarted(s'.history) + AheadPaused(s') <= LinesStarted(s.history) + AheadPaused(s))
    && (!s.ctl.paused && s'.ctl.paused ==> LinesStarted(s'.history) == LinesStarted(s.history))
  }

  lemma MicroTighter(c: Config, s: Streamer, now: real)
    requires !Suspended(s.point)
    ensures Tighter(s, Micro(c, s, now)) && Micro(c, s, now).ctl.paused == s.ctl.paused
  {
    hide LinesStarted, Handle, StallCheck, PollDue, WrittenOff, Once, LineBytes;
    MicroGrows(c, s, now);
    if s.point.TakeMessage? && s.pending != [] {
      HandleShape(s.(pending := s.pending[1..]), s.pending[0], now);
    }
  }

  lemma {:induction false} AdvanceTighter(c: Config, s: Streamer, now: real)
    ensures Tighter(s, Advance(c, s, now)) && Advance(c, s, now).ctl.paused == s.ctl.paused
    decreases |s.pending|, Rank(s.point)
  {
    hide Micro, LinesStarted;
    if Suspended(s.point) {
    } else {
      MicroAdvances(c, s, now);
      MicroTighter(c, s, now);
      AdvanceTighter(c, Micro(c, s, now), now);
    }
  }

  lemma ContinueTighter(c: Config, s: Streamer, now: real, o: Outcome)
    requires Suspended(s.point)
    ensures Tighter(s, Continue(c, s, now, o)) && Continue(c, s, now, o).ctl.paused == s.ctl.paused
  {
    hide LinesStarted, WrittenOff, Once, PollDue, LineBytes;
    ContinueGrows(c, s, now, o);
  }

  /** resume() and cancel() end a pause; nothing else does. */
  predicate Releases(e: Event) {
    e.Command? && e.op != Pause
  }

  lemma StepTighter(c: Config, s: Streamer, e: Event)
    requires Suspended(s.point)
    ensures s.ctl.cancelled ==>
              var s' := Step(c, s, e);
              s'.ctl.cancelled
              && LinesStarted(s'.history) + AheadCancelled(s') <= LinesStarted(s.history) + AheadCancelled(s)
    ensures s.ctl.paused && !Releases(e) ==>
              var s' := Step(c, s, e);
              s'.ctl.paused
              && LinesStarted(s'.history) + AheadPaused(s') <= LinesStarted(s.history) + AheadPaused(s)
  {
    match e
    case Command(_, _) =>
    case Wake(now, o) =>
      ContinueTighter(c, s, now, o);
      AdvanceTighter(c, Continue(c, s, now, o), now);
  }

  lemma {:induction false} RunTighter(c: Config, s: Streamer, tape: seq<Event>)
    requires Inv(c, s) && Suspended(s.point)
    ensures s.ctl.cancelled ==>
              LinesStarted(Run(c, s, tape).history) <= LinesStarted(s.history) + AheadCancelled(s)
    ensures s.ctl.paused && (forall i :: 0 <= i < |tape| ==> !Releases(tape[i])) ==>
              LinesStarted(Run(c, s, tape).history) <= LinesStarted(s.history) + AheadPaused(s)
    decreases |tape|
  {
    hide LawKept, Step;
    if tape == [] {
    } else {
      StepKeeps(c, s, tape[0]);
      StepTighter(c, s, tape[0]);
      RunTighter(c, Step(c, s, tape[0]), tape[1..]);
    }
  }

  lemma {:induction false} RunSplits(c: Config, s: Streamer, t1: seq<Event>, t2: seq<Event>)
    ensures Run(c, s, t1 + t2) == Run(c, Run(c, s, t1), t2)
    decreases |t1|
  {
    if t1 == [] {
      assert t1 + t2 == t2;
    } else {
      assert (t1 + t2)[0] == t1[0] && (t1 + t2)[1..] == t1[1..] + t2;
      RunSplits(c, Step(c, s, t1[0]), t1[1..], t2);
    }
  }

  /** In every run at most one line write starts after cancel(). */
  lemma CancelIsPrompt(c: Config, job: Job, t0: real, before: seq<Event>, after: seq<Event>)
    requires RunOf(c, job, t0, before).ctl.cancelled
    ensures LinesStarted(RunOf(c, job, t0, before + after).history)
            <= LinesStarted(RunOf(c, job, t0, before).history) + 1
  {
    RunInv(c, job, t0, before);
    RunSplits(c, Init(job, t0), before, after);
    RunTighter(c, RunOf(c, job, t0, before), after);
  }

  /** In every run at most one line write starts between pause() and the next resume() or cancel(). */
  lemma PauseIsPrompt(c: Config, job: Job, t0: real, before: seq<Event>, after: seq<Event>)
    requires RunOf(c, job, t0, before).ctl.paused
    requires forall i :: 0 <= i < |after| ==> !Releases(after[i])
    ensures LinesStarted(RunOf(c, job, t0, before + after).history)
            <= LinesStarted(RunOf(c, job, t0, before).history) + 1
  {
    RunInv(c, job, t0, before);
    RunSplits(c, Init(job, t0), before, after);
    RunTighter(c, RunOf(c, job, t0, before), after);
  }

  // ----- Does a cancelled run end? ---------------------------------------------------------

  /** A run waits at a pause after an event exactly when it waited before and the event does not wake
      it, or when it is paused and the event has it come to a line: the file was loaded, or a write
      ended with a line to follow. cancel() plays no part in it. */
  predicate ComesToWait(s: Streamer, e: Event) {
    if s.point == AtResume(false) then !Releases(e) && (e.Wake? ==> !e.outcome.TaskCancelled?)
    else
      && s.ctl.paused && e.Wake? && e.outcome.Done?
      && (|| (s.point.Loading? && s.job.dwell.Some? && Sending(s))
          || (s.point.AtWrite? && s.ctl.sent + 1 < |s.job.lines|))
  }

  lemma MicroGoesOn(c: Config, s: Streamer, now: real)
    requires !Suspended(s.point) && !s.point.NextLine?
    ensures var s' := Micro(c, s, now); !s'.point.NextLine? && !s'.point.AtResume?
  {
    hide Handle, StallCheck, PollDue, LineBytes;
    if s.point.TakeMessage? && s.pending != [] {
      HandleShape(s.(pending := s.pending[1..]), s.pending[0], now);
    }
  }

  lemma {:induction false} AdvanceGoesOn(c: Config, s: Streamer, now: real)
    requires !s.point.NextLine? && !s.point.AtResume?
    ensures !Advance(c, s, now).point.AtResume?
    decreases |s.pending|, Rank(s.point)
  {
    hide Micro;
    if Suspended(s.point) {
    } else {
      MicroAdvances(c, s, now);
      MicroGoesOn(c, s, now);
      AdvanceGoesOn(c, Micro(c, s, now), now);
    }
  }

  lemma PauseHoldsExactly(c: Config, s: Streamer, e: Event)
    requires WindowOk(c, s) && Suspended(s.point)
    ensures Step(c, s, e).point == AtResume(false) <==> ComesToWait(s, e)
  {
    hide Advance, PollDue, LineBytes, InFlightOk, DrainOk;
    if e.Wake? {
      var s1 := Continue(c, s, e.at, e.outcome);
      AdvanceTurn(c, s1, e.at);
      if s1.point.NextLine? {
        var s2 := Micro(c, s1, e.at);
        AdvanceTurn(c, s2, e.at);
        if !s2.point.AtResume? { AdvanceGoesOn(c, s2, e.at); }
      } else if !s1.point.AtResume? {
        AdvanceGoesOn(c, s1, e.at);
      }
    }
  }

  /** Awaits that still have to complete before a cancelled run has reported or waits at a pause. */
  function TurnsToEnd(p: Point): nat {
    match p
    case Finished(_) => 0
    case AtResume(woken) => if woken then 3 else 0
    case AtFailsafe(_) => 1
    case AtPoll(next) => if next == ToCheck then 2 else if next == ToRead then 5 else 4
    case AtRead => 4
    case _ => 3
  }

  /** The event completes the await; a query written beside a read leaves the read where it is. */
  predicate Completes(s: Streamer, e: Event) {
    e.Wake? && !e.outcome.Timer? && s.point != AtPoll(ToSameRead)
  }

  /** Awaits completed over a tape. */
  function Completed(c: Config, s: Streamer, tape: seq<Event>): nat
    decreases |tape|
  {
    if tape == [] then 0
    else (if Completes(s, tape[0]) then 1 else 0) + Completed(c, Step(c, s, tape[0]), tape[1..])
  }

  lemma HandleCloser(s: Streamer, m: Message, now: real)
    requires s.ctl.cancelled
    ensures var s' := Handle(s, m, now); s'.ctl.cancelled && (Suspended(s'.point) ==> TurnsToEnd(s'.point) <= 3)
  {
    HandleShape(s, m, now);
  }

  /** Where a running, cancelled run suspends next: never at another read it has not begun. */
  lemma {:induction false} AdvanceCloser(c: Config, s: Streamer, now: real)
    requires s.ctl.cancelled && (s.point.AtWrite? ==> Sending(s))
    ensures var s' := Advance(c, s, now);
            && s'.ctl.cancelled
            && (!Suspended(s.point) && !s.point.TakeMessage? ==>
                  TurnsToEnd(s'.point) <= if s.point.NextLine? || s.point.PollBeforeLine? then 2
                                          else if s.point.SendHead? then 3 else 1)
            && (s.point.TakeMessage? ==> TurnsToEnd(s'.point) <= if s.pending == [] then 4 else 3)
            && (Suspended(s.point) ==> s' == s)
    decreases |s.pending|, Rank(s.point)
  {
    hide Handle, StallCheck, LineBytes;
    if Suspended(s.point) {
    } else {
      MicroAdvances(c, s, now);
      if s.point.TakeMessage? && s.pending != [] {
        HandleCloser(s.(pending := s.pending[1..]), s.pending[0], now);
        HandleShape(s.(pending := s.pending[1..]), s.pending[0], now);
      }
      AdvanceCloser(c, Micro(c, s, now), now);
    }
  }

  lemma ContinueCloser(c: Config, s: Streamer, now: real, o: Outcome)
    requires WindowOk(c, s) && Suspended(s.point) && s.ctl.cancelled && s.point != AtResume(false)
    ensures var s1 := Continue(c, s, now, o);
            && s1.ctl.cancelled && (s1.point.AtWrite? ==> s1 == s && !Completes(s, Wake(now, o)))
            && (s.point.Finished? ==> s1 == s)
            && (Suspended(s1.point) && !s.point.Finished? ==>
                  TurnsToEnd(s1.point) + (if Completes(s, Wake(now, o)) then 1 else 0) <= TurnsToEnd(s.point))
            && (!Suspended(s1.point) ==> Completes(s, Wake(now, o)))
            && (s1.point.TakeMessage? ==> (s.point.AtRead? && s1.pending != []) || s.point == AtPoll(ToRead))
            && (!Suspended(s1.point) && !s1.point.TakeMessage? ==>
                  || (s.point == AtPoll(ToCheck) && s1.point.CheckCancel?)
                  || s.point.AtRead?
                  || ((s.point.Loading? || s.point.AtWrite? || s.point.AtResume?)
                      && (s1.point.NextLine? || s1.point.PollBeforeLine?)))
  {
    hide PollDue, LineBytes, InFlightOk, DrainOk, Fits;
  }

  lemma StepCloser(c: Config, s: Streamer, e: Event)
    requires WindowOk(c, s) && Suspended(s.point) && s.ctl.cancelled && s.point != AtResume(false)
    ensures var s' := Step(c, s, e);
            && s'.ctl.cancelled && (s.point.Finished? ==> s' == s)
            && (!s.point.Finished? ==> TurnsToEnd(s'.point) + (if Completes(s, e) then 1 else 0) <= TurnsToEnd(s.point))
  {
    hide Advance, Continue, InFlightOk, DrainOk, Fits, LineBytes;
    if e.Wake? {
      ContinueCloser(c, s, e.at, e.outcome);
      AdvanceCloser(c, Continue(c, s, e.at, e.outcome), e.at);
    }
  }

  predicate EndedOrWaits(p: Point) {
    p.Finished? || p == AtResume(false)
  }

  /** After at most five completed awaits, whatever else happens, a cancelled run has reported or
      come to wait at a pause. */
  lemma {:induction false} CancelledRunEndsOrWaits(c: Config, s: Streamer, tape: seq<Event>)
    requires Inv(c, s) && Suspended(s.point) && s.ctl.cancelled
    requires Completed(c, s, tape) >= TurnsToEnd(s.point)
    ensures exists k :: 0 <= k <= |tape| && EndedOrWaits(Run(c, s, tape[..k]).point)
    decreases |tape|
  {
    hide LawKept, Step;
    assert tape[..0] == [] && Run(c, s, tape[..0]) == s;
    if EndedOrWaits(s.point) || tape == [] {
    } else {
      var s1 := Step(c, s, tape[0]);
      StepKeeps(c, s, tape[0]);
      StepCloser(c, s, tape[0]);
      CancelledRunEndsOrWaits(c, s1, tape[1..]);
      var k :| 0 <= k <= |tape[1..]| && EndedOrWaits(Run(c, s1, tape[1..][..k]).point);
      assert tape[..k + 1][0] == tape[0] && tape[..k + 1][1..] == tape[1..][..k];
      assert Run(c, s, tape[..k + 1]) == Run(c, s1, tape[1..][..k]);
    }
  }

  /** A cancelled run that is not paused again has reported after at most five completed awaits. */
  lemma {:induction false} CancelledRunEnds(c: Config, s: Streamer, tape: seq<Event>)
    requires Inv(c, s) && Suspended(s.point) && s.ctl.cancelled && !s.ctl.paused && s.point != AtResume(false)
    requires forall i :: 0 <= i < |tape| ==> !(tape[i].Command? && tape[i].op == Pause)
    requires Completed(c, s, tape) >= TurnsToEnd(s.point)
    ensures Run(c, s, tape).point.Finished?
    decreases |tape|
  {
    hide LawKept, Step;
    if tape == [] {
    } else if s.point.Finished? {
      FinishedStays(c, s, tape);
    } else {
      StepKeeps(c, s, tape[0]);
      StepCloser(c, s, tape[0]);
      PauseHoldsExactly(c, s, tape[0]);
      StaysUnpaused(c, s, tape[0]);
      CancelledRunEnds(c, Step(c, s, tape[0]), tape[1..]);
    }
  }

  lemma StaysUnpaused(c: Config, s: Streamer, e: Event)
    requires Suspended(s.point) && !s.ctl.paused && !(e.Command? && e.op == Pause)
    ensures !Step(c, s, e).ctl.paused
  {
    hide Advance, Continue;
    if e.Wake? {
      ContinueTighter(c, s, e.at, e.outcome);
      AdvanceTighter(c, Continue(c, s, e.at, e.outcome), e.at);
    }
  }

  /** A run waiting at a pause goes on waiting until resume(), cancel() or the end of run(). */
  lemma {:induction false} BlockedStays(c: Config, s: Streamer, tape: seq<Event>)
    requires s.point == AtResume(false)
    requires forall i :: 0 <= i < |tape| ==>
               !Releases(tape[i]) && (tape[i].Wake? ==> !tape[i].outcome.TaskCancelled?)
    ensures Run(c, s, tape).point == AtResume(false)
    decreases |tape|
  {
    if tape == [] {
    } else {
      BlockedStays(c, Step(c, s, tape[0]), tape[1..]);
    }
  }

  /** cancel() followed by pause() before the run looks: the run is cancelled and yet waits, and
      no later serial input ends it. */
  lemma PauseAfterCancelBlocks(c: Config, job: Job, t0: real, tape: seq<Event>)
    requires job.lines != [] && job.dwell.Some?
    requires forall i :: 0 <= i < |tape| ==>
               !Releases(tape[i]) && (tape[i].Wake? ==> !tape[i].outcome.TaskCancelled?)
    ensures var s := RunOf(c, job, t0, [Command(Cancel, t0), Command(Pause, t0), Wake(t0, Done([]))] + tape);
            s.ctl.cancelled && s.point == AtResume(false)
  {
    var start := [Command(Cancel, t0), Command(Pause, t0), Wake(t0, Done([]))];
    var s1 := DoCommand(Init(job, t0), Cancel, t0);
    var s2 := DoCommand(s1, Pause, t0);
    var s3 := Continue(c, s2, t0, Done([]));
    assert s3.point.NextLine? && Sending(s3) && s3.ctl.paused;
    var s4 := Micro(c, s3, t0);
    assert Advance(c, s3, t0) == Advance(c, s4, t0) == s4;
    assert Step(c, s2, start[2]) == s4;
    assert start[1..] == [Command(Pause, t0), Wake(t0, Done([]))] && start[1..][1..] == [Wake(t0, Done([]))];
    assert Run(c, s2, [Wake(t0, Done([]))]) == Run(c, s4, []);
    assert Run(c, Init(job, t0), start) == s4;
    RunSplits(c, Init(job, t0), start, tape);
    BlockedStays(c, s4, tape);
    StaysCancelled(c, s4, tape);
  }

  lemma {:induction false} StaysCancelled(c: Config, s: Streamer, tape: seq<Event>)
    requires s.point == AtResume(false) && s.ctl.cancelled
    requires forall i :: 0 <= i < |tape| ==>
               !Releases(tape[i]) && (tape[i].Wake? ==> !tape[i].outcome.TaskCancelled?)
    ensures Run(c, s, tape).ctl.cancelled
    decreases |tape|
  {
    if tape == [] {
    } else {
      StaysCancelled(c, Step(c, s, tape[0]), tape[1..]);
    }
  }
}
