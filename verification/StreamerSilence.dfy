/** The watchdog: a silent device always ends the run with a fault. */
module StreamerSilence {
  import opened StreamerModel
  import opened StreamerLaws
  import opened StreamerWindow
  import opened StreamerTracking
  import opened StreamerRuns

  /** Suspended in a drain loop with no message left over. */
  predicate WaitingForDevice(s: Streamer) {
    && s.pending == []
    && (s.point.AtRead? || s.point == AtPoll(ToRead) || s.point == AtPoll(ToSameRead))
    && !s.ctl.cancelled
    && (s.watch.hold || !s.ctl.paused)
  }

  /** When the watchdog runs out if nothing more is heard. */
  function Deadline(c: Config, s: Streamer): real {
    if !s.watch.hold then s.watch.lastProgress + c.stallTimeout + Dwell(s.job)
    else if !s.watch.holdConfirmed then s.watch.holdStarted + c.holdConfirm
    else s.watch.lastStatusTime + c.stallTimeout
  }

  /** Every await completes, and every read comes back empty, at clock readings from t on that
      are at least d apart. */
  predicate Silent(tape: seq<Event>, t: real, d: real) {
    tape != [] ==>
      tape[0].Wake? && tape[0].outcome == Done([]) && tape[0].at >= t + d && Silent(tape[1..], tape[0].at, d)
  }

  predicate FaultEnd(s: Streamer) {
    s.point.AtFailsafe? || (s.point.Finished? && IsFault(s.point.result))
  }

  /** The run goes on waiting before the deadline, and starts the fail-safe after it. */
  ghost predicate WaitsOrFails(c: Config, s: Streamer, s': Streamer, now: real) {
    || s'.point.AtFailsafe?
    || (WaitingForDevice(s') && Deadline(c, s') == Deadline(c, s) && now < Deadline(c, s))
  }

  lemma TurnWaits(c: Config, s: Streamer, now: real)
    requires s.pending == [] && !s.ctl.cancelled && (s.watch.hold || !s.ctl.paused)
    ensures var s' := WaitTurn(c, s, now);
            || s'.point.AtFailsafe?
            || ((s'.point == AtPoll(ToRead) || s'.point.TakeMessage?)
                && s'.pending == [] && s'.ctl.cancelled == s.ctl.cancelled && s'.ctl.paused == s.ctl.paused
                && s'.watch.hold == s.watch.hold && Deadline(c, s') == Deadline(c, s) && now < Deadline(c, s))
  {
  }

  lemma NothingToTake(c: Config, s: Streamer, now: real)
    requires s.point.TakeMessage? && s.pending == []
    ensures Advance(c, s, now) == Note(s, ReadBegan(now)).(point := AtRead)
  {
    assert Advance(c, s, now) == Advance(c, Note(s, ReadBegan(now)).(point := AtRead), now);
  }

  lemma WaitHeadTurns(c: Config, s: Streamer, now: real)
    requires s.point == WaitHead && s.pending == [] && !s.ctl.cancelled && (s.watch.hold || !s.ctl.paused)
    ensures WaitsOrFails(c, s, Advance(c, s, now), now)
  {
    hide WaitTurn;
    TurnWaits(c, s, now);
    var s1 := WaitTurn(c, s, now);
    assert Advance(c, s, now) == Advance(c, s1, now) by { MicroAdvances(c, s, now); }
    if s1.point.TakeMessage? { NothingToTake(c, s1, now); }
  }

  /** A read that comes back empty leads to the watchdog. */
  lemma EmptyReadTurns(c: Config, s: Streamer, now: real)
    requires WindowOk(c, s) && WaitingForDevice(s) && s.point.AtRead?
    ensures WaitsOrFails(c, s, Step(c, s, Wake(now, Done([]))), now)
  {
    var s1 := s.(point := if Sending(s) then SendHead else TrailHead);
    assert Micro(c, s1, now) == s.(point := WaitHead);
    assert Advance(c, s1, now) == Advance(c, s.(point := WaitHead), now);
    WaitHeadTurns(c, s.(point := WaitHead), now);
  }

  /** A status query that has been written leads to the read. */
  lemma QueryTurns(c: Config, s: Streamer, now: real)
    requires WaitingForDevice(s) && !s.point.AtRead?
    ensures var s' := Step(c, s, Wake(now, Done([]))); s' == s.(point := AtRead, history := s'.history)
  {
    if s.point == AtPoll(ToRead) { NothingToTake(c, s.(point := TakeMessage), now); }
  }

  /** Writes finish, reads come back empty, and the poll timer may fire meanwhile. */
  predicate Quiet(tape: seq<Event>) {
    forall i :: 0 <= i < |tape| ==> tape[i].Wake? && (tape[i].outcome == Done([]) || tape[i].outcome.Timer?)
  }

  lemma {:induction false} FailedStaysFailed(c: Config, s: Streamer, tape: seq<Event>)
    requires FaultEnd(s) && Quiet(tape) && (s.point.AtFailsafe? ==> IsFault(s.point.pendingResult))
    ensures FaultEnd(Run(c, s, tape))
    decreases |tape|
  {
    if tape == [] {
    } else {
      FailedStaysFailed(c, Step(c, s, tape[0]), tape[1..]);
    }
  }

  lemma TimerTurns(c: Config, s: Streamer, now: real)
    requires WaitingForDevice(s)
    ensures var s' := Step(c, s, Wake(now, Timer)); WaitingForDevice(s') && Deadline(c, s') == Deadline(c, s)
  {
    var s1 := Continue(c, s, now, Timer);
    assert Suspended(s1.point);
  }

  lemma QuietStep(c: Config, s: Streamer, e: Event)
    requires WindowOk(c, s) && WaitingForDevice(s) && e.Wake? && (e.outcome == Done([]) || e.outcome.Timer?)
    ensures var s' := Step(c, s, e);
            || s'.point.AtFailsafe?
            || (WaitingForDevice(s') && Deadline(c, s') == Deadline(c, s)
                && (s.point.AtRead? && e.outcome.Done? ==> e.at < Deadline(c, s)))
  {
    hide WindowOk, Step;
    if e.outcome.Timer? {
      TimerTurns(c, s, e.at);
    } else if s.point.AtRead? {
      EmptyReadTurns(c, s, e.at);
    } else {
      QueryTurns(c, s, e.at);
    }
  }

  /** A read that comes back empty once the deadline has passed ends the run with a fault, however
      often the poll timer fired in between. */
  lemma {:induction false} QuietRunFails(c: Config, s: Streamer, tape: seq<Event>, k: nat)
    requires Inv(c, s) && WaitingForDevice(s) && Quiet(tape)
    requires k < |tape| && tape[k].at >= Deadline(c, s) && tape[k].outcome.Done?
    requires Run(c, s, tape[..k]).point.AtRead?
    ensures FaultEnd(Run(c, s, tape))
    decreases |tape|
  {
    hide WindowOk, Step, Lawful, FactsOf, Tracks, Calm;
    var s1 := Step(c, s, tape[0]);
    StepKeeps(c, s, tape[0]);
    QuietStep(c, s, tape[0]);
    if s1.point.AtFailsafe? {
      FailedStaysFailed(c, s1, tape[1..]);
    } else {
      assert tape[..k] != [] ==> tape[..k][0] == tape[0] && tape[..k][1..] == tape[1..][..k - 1];
      QuietRunFails(c, s1, tape[1..], k - 1);
    }
  }

  /** The same for every run: once the device falls silent while the run waits for it, the first
      read that ends empty at or after the deadline ends the run with a fault. */
  lemma EveryQuietRunFails(c: Config, job: Job, t0: real, before: seq<Event>, quiet: seq<Event>, k: nat)
    requires WaitingForDevice(RunOf(c, job, t0, before)) && Quiet(quiet)
    requires k < |quiet| && quiet[k].at >= Deadline(c, RunOf(c, job, t0, before)) && quiet[k].outcome.Done?
    requires Run(c, RunOf(c, job, t0, before), quiet[..k]).point.AtRead?
    ensures FaultEnd(Run(c, RunOf(c, job, t0, before), quiet))
  {
    hide WindowOk, LawKept;
    RunInv(c, job, t0, before);
    QuietRunFails(c, RunOf(c, job, t0, before), quiet, k);
  }

  /** Once the clock has passed the deadline, silence has ended the run with a fault. */
  lemma {:induction false} SilentRunFails(c: Config, s: Streamer, tape: seq<Event>, t: real, d: real)
    requires Inv(c, s) && WaitingForDevice(s) && Silent(tape, t, d) && d >= 0.0
    requires |tape| >= 2 && tape[|tape| - 2].at >= Deadline(c, s)
    ensures FaultEnd(Run(c, s, tape))
    decreases |tape|
  {
    hide WindowOk, Step, Lawful, FactsOf, Tracks, Calm;
    var now := tape[0].at;
    var s1 := Step(c, s, tape[0]);
    StepKeeps(c, s, tape[0]);
    if s.point.AtRead? { EmptyReadTurns(c, s, now); } else { QueryTurns(c, s, now); }
    if s1.point.AtFailsafe? {
      SilentIsQuiet(tape[1..], now, d);
      FailedStaysFailed(c, s1, tape[1..]);
    } else if |tape| > 2 {
      SilentRunFails(c, s1, tape[1..], now, d);
    } else {
      StepKeeps(c, s1, tape[1]);
      EmptyReadTurns(c, s1, tape[1].at);
      assert Run(c, s, tape) == Run(c, s1, [tape[1]]) == Step(c, s1, tape[1]) by {
        assert tape[1..] == [tape[1]] && tape[1..][1..] == [];
      }
    }
  }

  lemma {:induction false} SilentIsQuiet(tape: seq<Event>, t: real, d: real)
    requires Silent(tape, t, d)
    ensures Quiet(tape)
  {
    if tape == [] {
    } else {
      SilentIsQuiet(tape[1..], tape[0].at, d);
    }
  }

  lemma {:induction false} ClockRuns(tape: seq<Event>, t: real, d: real, k: nat)
    requires Silent(tape, t, d) && k < |tape|
    ensures tape[k].at >= t + (k + 1) as real * d
  {
    if k == 0 {
    } else {
      ClockRuns(tape[1..], tape[0].at, d, k - 1);
      assert (k + 1) as real * d == k as real * d + d;
    }
  }

  /** With a clock that advances by at least d at every await, a device that falls silent while
      the run is waiting for it ends the run with a fault within (deadline - t) / d + 1 awaits. */
  lemma SilenceEndsInFault(c: Config, job: Job, t0: real, before: seq<Event>, silence: seq<Event>, t: real, d: real)
    requires var s := RunOf(c, job, t0, before);
             && WaitingForDevice(s) && Silent(silence, t, d) && d >= 0.0 && |silence| >= 2
             && t + (|silence| - 1) as real * d >= Deadline(c, s)
    ensures FaultEnd(Run(c, RunOf(c, job, t0, before), silence))
  {
    hide WindowOk, LawKept;
    RunInv(c, job, t0, before);
    ClockRuns(silence, t, d, |silence| - 2);
    SilentRunFails(c, RunOf(c, job, t0, before), silence, t, d);
  }
}
