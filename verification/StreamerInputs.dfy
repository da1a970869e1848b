/** The history leaves nothing out and makes nothing up: what a run records as heard, commanded and
    broken is what its tape delivered. */
module StreamerInputs {
  import opened GrblMessages
  import opened StreamerModel
  import opened StreamerTracking
  import opened StreamerRuns

  ghost function HeardIn(h: History): seq<Message> {
    match h
    case Created(_) => []
    case Then(b, Heard(m, _)) => HeardIn(b) + [m]
    case Then(b, _) => HeardIn(b)
  }

  ghost function CommandsIn(h: History): seq<Event> {
    match h
    case Created(_) => []
    case Then(b, Commanded(op, t)) => CommandsIn(b) + [Command(op, t)]
    case Then(b, _) => CommandsIn(b)
  }

  ghost function BreaksIn(h: History): seq<Event> {
    match h
    case Created(_) => []
    case Then(b, Broke(o, t)) => BreaksIn(b) + [Wake(t, o)]
    case Then(b, _) => BreaksIn(b)
  }

  ghost function TicksIn(h: History): seq<real> {
    match h
    case Created(_) => []
    case Then(b, Ticked(t)) => TicksIn(b) + [t]
    case Then(b, _) => TicksIn(b)
  }

  /** What a history has taken in. */
  datatype Inputs = Inputs(heard: seq<Message>, commands: seq<Event>, breaks: seq<Event>, ticks: seq<real>)

  ghost function InputsOf(h: History): Inputs {
    Inputs(HeardIn(h), CommandsIn(h), BreaksIn(h), TicksIn(h))
  }

  /** An exception that the await the run is at lets out. A lost link is ignored by a query, and
      the fail-safe ignores all but the cancellation of run(). */
  predicate Breaks(p: Point, o: Outcome) {
    match p
    case Loading => o.LinkLost? || o.Crash? || o.TaskCancelled?
    case AtRead => o.LinkLost? || o.Crash? || o.TaskCancelled?
    case AtWrite => o.LinkLost? || o.Crash? || o.TaskCancelled?
    case AtPoll(_) => o.Crash? || o.TaskCancelled?
    case AtResume(_) => o.TaskCancelled?
    case _ => false
  }

  /** What one event delivers to a run suspended at s. */
  function Delivers(s: Streamer, e: Event): Inputs {
    match e
    case Command(_, _) => Inputs([], if s.point.Finished? then [] else [e], [], [])
    case Wake(now, o) =>
      Inputs(if s.point.AtRead? && o.Done? then o.messages else [],
             [],
             if Breaks(s.point, o) then [e]
             else if s.point.Loading? && o.Done? && s.job.dwell.None? then [Wake(now, Crash)] else [],
             if s.point.AtRead? && o.Timer? then [now] else [])
  }

  function Join(a: Inputs, b: Inputs): Inputs {
    Inputs(a.heard + b.heard, a.commands + b.commands, a.breaks + b.breaks, a.ticks + b.ticks)
  }

  /** What a tape delivers to a run. */
  function Delivered(c: Config, s: Streamer, tape: seq<Event>): Inputs
    decreases |tape|
  {
    if tape == [] then Inputs([], [], [], [])
    else Join(Delivers(s, tape[0]), Delivered(c, Step(c, s, tape[0]), tape[1..]))
  }

  /** What a run has taken in, the messages still queued included. */
  ghost function Taken(s: Streamer): Inputs {
    InputsOf(s.history).(heard := HeardIn(s.history) + s.pending)
  }

  lemma MarksTakeNothing(h: History, v: Verdict, now: real)
    ensures InputsOf(MarkHold(h, v, now)) == InputsOf(h)
  {
    var h1 := if v.began then Then(h, HoldBegan(now)) else h;
    assert InputsOf(h1) == InputsOf(h);
  }

  lemma FinishTakesNothing(s: Streamer, r: StreamerResult, now: real)
    ensures InputsOf(Finish(s, r, now).history) == InputsOf(s.history) && Finish(s, r, now).pending == s.pending
  {
  }

  lemma ResyncTakesNothing(s: Streamer, r: StatusReport, now: real)
    ensures InputsOf(ResyncOrWait(s, r, now).history) == InputsOf(s.history)
  {
    hide PhantomCheck;
    assert InputsOf(Then(s.history, PhantomResync)) == InputsOf(s.history);
    assert InputsOf(Then(s.history, IdleResync)) == InputsOf(s.history);
  }

  lemma CompleteTakesNothing(s: Streamer, r: StatusReport, now: real)
    ensures InputsOf(CompleteOrWait(s, r, now).history) == InputsOf(s.history)
  {
    assert InputsOf(Then(s.history, IdleCompletion)) == InputsOf(s.history);
  }

  lemma StatusTakesNothing(s: Streamer, r: StatusReport, now: real)
    ensures InputsOf(StatusInSend(s, r, now).history) == InputsOf(s.history)
    ensures InputsOf(StatusInTrail(s, r, now).history) == InputsOf(s.history)
  {
    hide StatusCheck, ResyncOrWait, CompleteOrWait, InputsOf, MarkHold, Finish;
    var v := StatusCheck(s.watch, s.ctl.paused, r, now);
    var s1 := s.(watch := v.watch, history := MarkHold(s.history, v, now));
    MarksTakeNothing(s.history, v, now);
    ResyncTakesNothing(s1, r, now);
    CompleteTakesNothing(s1, r, now);
    if v.fault.Some? { FinishTakesNothing(s1, FaultResult(s1, v.fault.value), now); }
  }

  /** Handling a message takes in that message and nothing else. */
  lemma HandleTakesOne(s: Streamer, m: Message, now: real)
    ensures InputsOf(Handle(s, m, now).history) == InputsOf(s.history).(heard := HeardIn(s.history) + [m])
    ensures Handle(s, m, now).pending == s.pending
  {
    hide StatusInSend, StatusInTrail;
    HandleReturns(s, m, now);
    var h := Note(s, Heard(m, now));
    assert InputsOf(h.history) == InputsOf(s.history).(heard := HeardIn(s.history) + [m]);
    if m.Status? {
      StatusTakesNothing(h, m.report, now);
    } else if m.VendorFault? {
      assert InputsOf(Then(h.history, HoldBegan(now))) == InputsOf(h.history);
    }
  }

  lemma MicroTakesNothing(c: Config, s: Streamer, now: real)
    requires !Suspended(s.point)
    ensures Taken(Micro(c, s, now)) == Taken(s)
  {
    hide Handle;
    if s.point.TakeMessage? && s.pending != [] {
      HandleTakesOne(s.(pending := s.pending[1..]), s.pending[0], now);
      assert (HeardIn(s.history) + [s.pending[0]]) + s.pending[1..] == HeardIn(s.history) + s.pending;
    } else if s.point.WaitHead? {
      assert InputsOf(Then(s.history, Waited(now))) == InputsOf(s.history);
    } else if s.point.PollBeforeLine? {
      assert InputsOf(Then(s.history, Ready(now))) == InputsOf(s.history);
    }
  }

  lemma {:induction false} AdvanceTakesNothing(c: Config, s: Streamer, now: real)
    ensures Taken(Advance(c, s, now)) == Taken(s)
    decreases |s.pending|, Rank(s.point)
  {
    hide Micro, Taken;
    if Suspended(s.point) {
    } else {
      MicroAdvances(c, s, now);
      MicroTakesNothing(c, s, now);
      AdvanceTakesNothing(c, Micro(c, s, now), now);
    }
  }

  lemma RaiseTakes(s: Streamer, o: Outcome, now: real)
    ensures Taken(Raise(s, o, now)) == Join(Taken(s), Inputs([], [], [Wake(now, o)], []))
  {
    var b := Note(s, Broke(o, now));
    assert Taken(b) == Join(Taken(s), Inputs([], [], [Wake(now, o)], []));
    if o.Crash? { FinishTakesNothing(b, FaultResult(s, InternalError), now); }
  }

  lemma PollTakesNothing(c: Config, s: Streamer, now: real, next: PollNext)
    ensures Taken(Poll(c, s, now, next)) == Taken(s)
  {
  }

  /** Completing an await takes in what the event delivers. */
  lemma ContinueTakes(c: Config, s: Streamer, now: real, o: Outcome)
    requires Suspended(s.point) && (s.point.AtRead? ==> s.pending == [])
    ensures Taken(Continue(c, s, now, o)) == Join(Taken(s), Delivers(s, Wake(now, o)))
  {
    hide Raise, Poll, LineWritten;
    RaiseTakes(s, o, now);
    assert Join(Taken(s), Inputs([], [], [], [])) == Taken(s);
    match s.point
    case Loading =>
      var s1 := s.(ctl := s.ctl.(total := |s.job.lines|));
      RaiseTakes(s1, Crash, now);
      assert Taken(Note(s1, Began(now))) == Taken(s);
    case AtFailsafe(r) =>
      assert InputsOf(Then(s.history, Interrupted)) == InputsOf(s.history);
    case AtRead =>
      if o.Timer? {
        PollTakesNothing(c, Note(s, Ticked(now)), now, ToSameRead);
        assert Taken(Note(s, Ticked(now))) == Join(Taken(s), Inputs([], [], [], [now]));
      } else if o.Done? {
        assert HeardIn(s.history) + [] + o.messages == HeardIn(s.history) + o.messages;
      }
    case AtWrite => WrittenTakesNothing(s);
    case _ =>
  }

  lemma WrittenTakesNothing(s: Streamer)
    ensures Taken(LineWritten(s)) == Taken(s)
  {
  }

  lemma StepTakes(c: Config, s: Streamer, e: Event)
    requires Suspended(s.point) && (s.point.AtRead? ==> s.pending == [])
    ensures Taken(Step(c, s, e)) == Join(Taken(s), Delivers(s, e))
  {
    hide Continue, Advance;
    match e
    case Command(op, now) =>
      assert Join(Taken(s), Inputs([], [], [], [])) == Taken(s);
      assert Taken(Note(s, Commanded(op, now))) == Join(Taken(s), Inputs([], [e], [], []));
    case Wake(now, o) =>
      ContinueTakes(c, s, now, o);
      AdvanceTakesNothing(c, Continue(c, s, now, o), now);
  }

  lemma {:induction false} RunTakes(c: Config, s: Streamer, tape: seq<Event>)
    requires Inv(c, s) && Suspended(s.point)
    ensures Taken(Run(c, s, tape)) == Join(Taken(s), Delivered(c, s, tape))
    decreases |tape|
  {
    hide LawKept, Step, Taken, Delivers;
    if tape == [] {
      assert Join(Taken(s), Inputs([], [], [], [])) == Taken(s);
    } else {
      var s1 := Step(c, s, tape[0]);
      StepKeeps(c, s, tape[0]);
      StepTakes(c, s, tape[0]);
      RunTakes(c, s1, tape[1..]);
      JoinRegroups(Taken(s), Delivers(s, tape[0]), Delivered(c, s1, tape[1..]));
    }
  }

  lemma JoinRegroups(a: Inputs, b: Inputs, d: Inputs)
    ensures Join(Join(a, b), d) == Join(a, Join(b, d))
  {
  }

  /** In every run the messages heard, then those still queued, are exactly the messages the reads
      delivered, in order; and the commands, exceptions and timer firings in the history are exactly
      the tape's. */
  lemma EveryInputIsRecorded(c: Config, job: Job, t0: real, tape: seq<Event>)
    ensures var s := RunOf(c, job, t0, tape);
            var d := Delivered(c, Init(job, t0), tape);
            && HeardIn(s.history) + s.pending == d.heard
            && CommandsIn(s.history) == d.commands
            && BreaksIn(s.history) == d.breaks
            && TicksIn(s.history) == d.ticks
  {
    InitInv(c, job, t0);
    RunTakes(c, Init(job, t0), tape);
    var none := Taken(Init(job, t0));
    assert none == Inputs([], [], [], []);
    var d := Delivered(c, Init(job, t0), tape);
    assert Join(none, d) == d;
  }
}
