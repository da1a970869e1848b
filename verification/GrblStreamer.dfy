/** GrblStreamer as the program has it: one object whose fields the methods update, and loops
    that send lines and drain responses. Every method is proved against the event machine of
    StreamerModel; what the machine does in every run is proved in the Streamer modules. */
module GrblStreamers {
  import opened Options
  import opened GrblMessages
  import opened StreamerModel
  import opened StreamerLaws
  import opened StreamerRuns

  /** The local variables of _stream_lines. */
  datatype Locals = Locals(used: int, lengths: seq<nat>, idlePolls: nat, pending: seq<Message>)

  /** How an await comes back: normally, with an exception, or not at all: the tape ends. */
  datatype Await = Back | Gone(outcome: Outcome) | TapeEnds

  /** What one message tells a drain loop to do. */
  datatype Act = Again | SendNow | Stop(result: StreamerResult)

  /** How _stream_lines ends: with a result, with an exception, or not yet. */
  datatype Flow = Returned(result: StreamerResult) | Raised(outcome: Outcome) | Unfinished

  class GrblStreamer {
    const cfg: Config
    const job: Job

    var paused: bool
    var cancelled: bool
    var linesSent: nat
    var totalLines: nat
    var lastPoll: real
    var rxCapacity: int
    var rxDrainedPolls: nat
    var laserOnPolls: nat
    var resumeGraceUntil: real
    var lastMpos: Option<Position>
    var lastProgress: real
    var machineHold: bool
    var holdStarted: real
    var holdConfirmed: bool
    var holdFromStatus: bool
    var lastStatusTime: real
    var resumedFromHold: bool

    /** The events still to come, and what has happened. */
    var inbox: seq<Event>
    ghost var history: History

    constructor (cfg: Config, job: Job, now: real, tape: seq<Event>)
      ensures this.cfg == cfg && this.job == job && inbox == tape
      ensures Abs(Locals(0, [], 0, []), Loading) == Init(job, now)
    {
      this.cfg, this.job := cfg, job;
      paused, cancelled, linesSent, totalLines, lastPoll := false, false, 0, 0, 0.0;
      rxCapacity, rxDrainedPolls := 0, 0;
      laserOnPolls, resumeGraceUntil, lastMpos, lastProgress := 0, 0.0, None, now;
      machineHold, holdStarted, holdConfirmed, holdFromStatus := false, 0.0, false, false;
      lastStatusTime, resumedFromHold := now, false;
      inbox, history := tape, Created(now);
    }

    // ----- Abstraction ---------------------------------------------------------------------

    ghost function Ctl(): Control
      reads this
    {
      Control(paused, cancelled, linesSent, totalLines, lastPoll)
    }

    ghost function TheWatch(): Watch
      reads this
    {
      Watch(lastMpos, lastProgress, lastStatusTime, machineHold, holdStarted, holdConfirmed,
            holdFromStatus, laserOnPolls, resumeGraceUntil, resumedFromHold)
    }

    ghost function TheWindow(l: Locals): Window
      reads this
    {
      Window(l.used, l.lengths, l.idlePolls, rxCapacity, rxDrainedPolls)
    }

    /** The machine state: the fields, the locals and the program point. */
    ghost function Abs(l: Locals, point: Point): Streamer
      reads this
    {
      Streamer(job, Ctl(), TheWatch(), TheWindow(l), l.pending, point, history)
    }

    /** Where the drain loop that is on begins. */
    ghost function LoopTop(): Point
      reads this
    {
      if linesSent < |job.lines| then SendHead else TrailHead
    }

    // ----- pause, resume, cancel -----------------------------------------------------------

    /** What no command, poll or check of one message touches. */
    twostate predicate RxSame()
      reads this
    {
      rxCapacity == old(rxCapacity) && rxDrainedPolls == old(rxDrainedPolls)
    }

    method Pause(now: real)
      modifies this
      ensures Ctl() == old(Ctl()).(paused := true) && TheWatch() == old(TheWatch())
      ensures history == Then(old(history), Commanded(Operator.Pause, now)) && RxSame() && inbox == old(inbox)
    {
      history := Then(history, Commanded(Operator.Pause, now));
      paused := true;
    }

    method Resume(now: real)
      modifies this
      ensures Ctl() == old(Ctl()).(paused := false)
      ensures TheWatch() == old(TheWatch()).(lastProgress := now, graceUntil := now + RESUME_GRACE_S)
      ensures history == Then(old(history), Commanded(Operator.Resume, now)) && RxSame() && inbox == old(inbox)
    {
      history := Then(history, Commanded(Operator.Resume, now));
      lastProgress := now;
      resumeGraceUntil := now + RESUME_GRACE_S;
      paused := false;
    }

    method Cancel(now: real)
      modifies this
      ensures Ctl() == old(Ctl()).(cancelled := true, paused := false) && TheWatch() == old(TheWatch())
      ensures history == Then(old(history), Commanded(Operator.Cancel, now)) && RxSame() && inbox == old(inbox)
    {
      history := Then(history, Commanded(Operator.Cancel, now));
      cancelled := true;
      paused := false;
    }

    method Obey(op: Operator, now: real, ghost l: Locals, ghost p: Point) returns (ghost p': Point)
      modifies this
      ensures Abs(l, p') == DoCommand(old(Abs(l, p)), op, now)
      ensures p' == if p.AtResume? && !op.Pause? then AtResume(true) else p
      ensures inbox == old(inbox) && linesSent == old(linesSent) && totalLines == old(totalLines)
    {
      match op {
        case Pause => Pause(now); p' := p;
        case Resume => Resume(now); p' := if p.AtResume? then AtResume(true) else p;
        case Cancel => Cancel(now); p' := if p.AtResume? then AtResume(true) else p;
      }
    }

    // ----- Supervision ---------------------------------------------------------------------

    method EnterMachineHold(fromStatus: bool, now: real)
      modifies `machineHold, `holdFromStatus, `holdStarted, `holdConfirmed, `laserOnPolls, `history
      ensures TheWatch() == EnterHold(old(TheWatch()), fromStatus, now)
      ensures history == if old(machineHold) then old(history) else Then(old(history), HoldBegan(now))
      ensures machineHold && Ctl() == old(Ctl()) && inbox == old(inbox)
      ensures RxSame()
    {
      if machineHold { return; }
      machineHold := true;
      holdFromStatus := fromStatus;
      holdStarted := now;
      holdConfirmed := false;
      laserOnPolls := 0;
      history := Then(history, HoldBegan(now));
    }

    method MachineHoldCheck(r: StatusReport, moved: bool, now: real) returns (fault: Option<Fault>)
      modifies `machineHold, `holdFromStatus, `holdConfirmed, `laserOnPolls, `resumedFromHold, `lastProgress, `history
      ensures var v := HoldCheck(old(TheWatch()), r, moved, now);
              && TheWatch() == v.watch && fault == v.fault
              && history == if v.ended then Then(old(history), HoldEnded(now)) else old(history)
      ensures Ctl() == old(Ctl())
    {
      var held := Held(r.state);
      var laser := LaserPower(r);
      if LeavingHold(r.state) && (holdConfirmed || holdFromStatus) {
        machineHold := false;
        holdConfirmed := false;
        holdFromStatus := false;
        resumedFromHold := true;
        lastProgress := now;
        history := Then(history, HoldEnded(now));
        return None;
      }
      if held && moved && holdConfirmed { return Some(HoldMoving); }
      if held && !moved && laser == Some(true) {
        laserOnPolls := laserOnPolls + 1;
        if laserOnPolls >= LASER_ON_HELD_POLLS { return Some(HoldLaserOn); }
        return None;
      }
      laserOnPolls := 0;
      if !holdConfirmed && held && !moved && laser == Some(false) {
        holdConfirmed := true;
      }
      return None;
    }

    /** Take in a report's time and position. */
    method TrackReport(r: StatusReport, now: real) returns (moved: bool)
      modifies this
      ensures TheWatch() == Observe(old(TheWatch()), r, now) && moved == Moved(old(TheWatch()), r)
      ensures history == old(history) && Ctl() == old(Ctl()) && inbox == old(inbox)
      ensures RxSame()
    {
      hide ReportedPosition;
      lastStatusTime := now;
      var mpos := ReportedPosition(r);
      moved := mpos.Some? && mpos != lastMpos;
      if moved {
        lastMpos := mpos;
        lastProgress := now;
      }
    }

    method StatusFault(r: StatusReport, now: real) returns (fault: Option<Fault>)
      modifies this
      ensures var v := StatusCheck(old(TheWatch()), old(paused), r, now);
              && TheWatch() == v.watch && fault == v.fault
              && history == MarkHold(old(history), v, now)
      ensures Ctl() == old(Ctl()) && inbox == old(inbox)
      ensures RxSame()
    {
      hide LaserPower, LeavingHold, Held, HoldLike, EnterHold, Observe, Moved;
      var moved := TrackReport(r, now);
      if "Alarm" <= r.state { return Some(AlarmState); }
      if !machineHold && HoldLike(r.state) && !paused && now >= resumeGraceUntil {
        EnterMachineHold(true, now);
      }
      if machineHold {
        fault := MachineHoldCheck(r, moved, now);
      } else {
        fault := None;
      }
    }

    method StallFault(now: real) returns (fault: Option<Fault>)
      modifies this
      ensures (TheWatch(), fault) == StallCheck(cfg, Dwell(job), old(TheWatch()), old(paused), now)
      ensures history == old(history) && Ctl() == old(Ctl()) && inbox == old(inbox)
      ensures RxSame()
    {
      if machineHold {
        if !holdConfirmed {
          if now - holdStarted >= cfg.holdConfirm { return Some(HoldUnconfirmed); }
          return None;
        }
        if now - lastStatusTime >= cfg.stallTimeout { return Some(SupervisionLost); }
        lastProgress := now;
        return None;
      }
      if paused {
        lastProgress := now;
        return None;
      }
      if now - lastProgress < cfg.stallTimeout + Dwell(job) { return None; }
      return Some(Stalled);
    }

    method BufferLooksPhantom(r: StatusReport, l: Locals) returns (phantom: bool)
      modifies this
      ensures (TheWindow(l), phantom) == PhantomCheck(old(TheWindow(l)), r)
      ensures history == old(history) && Ctl() == old(Ctl()) && inbox == old(inbox) && TheWatch() == old(TheWatch())
    {
      if r.bf.None? { return false; }
      var free := r.bf.value.1;
      if free > rxCapacity { rxCapacity := free; }
      if rxCapacity == 0 || l.used <= 0 {
        rxDrainedPolls := 0;
        return false;
      }
      if rxCapacity - free > RX_DRAINED_MARGIN {
        rxDrainedPolls := 0;
        return false;
      }
      rxDrainedPolls := rxDrainedPolls + 1;
      return rxDrainedPolls >= IDLE_COMPLETE_POLLS;
    }

    // ----- Awaits --------------------------------------------------------------------------

    /** Suspend at point p until a write finishes, a read ends, or (at a read) the poll timer
        fires; operator commands are obeyed meanwhile. */
    method Suspend(reading: bool, ghost l: Locals, ghost p: Point) returns (w: Option<(real, Outcome)>)
      requires Suspended(p) && !p.AtResume? && !p.Finished? && reading == p.AtRead?
      modifies this
      ensures w.Some? ==>
                && |inbox| < |old(inbox)|
                && (w.value.1.Timer? ==> p.AtRead?)
                && old(Run(cfg, Abs(l, p), inbox))
                   == Run(cfg, Advance(cfg, Continue(cfg, Abs(l, p), w.value.0, w.value.1), w.value.0), inbox)
      ensures w.None? ==> inbox == [] && old(Run(cfg, Abs(l, p), inbox)) == Abs(l, p)
      ensures linesSent == old(linesSent) && totalLines == old(totalLines)
    {
      hide DoCommand, Micro;
      ghost var goal := Run(cfg, Abs(l, p), inbox);
      while inbox != []
        invariant Run(cfg, Abs(l, p), inbox) == goal && |inbox| <= |old(inbox)|
        invariant linesSent == old(linesSent) && totalLines == old(totalLines)
        decreases |inbox|
      {
        var e := inbox[0];
        ghost var s := Abs(l, p);
        inbox := inbox[1..];
        assert Run(cfg, Step(cfg, s, e), inbox) == goal;
        match e {
          case Command(op, now) => ghost var _ := Obey(op, now, l, p);
          case Wake(now, o) =>
            if !o.Timer? || reading { return Some((now, o)); }
        }
      }
      return None;
    }

    /** `await self._resume_event.wait()` while paused. */
    method WaitResume(ghost l: Locals, ghost goal: Streamer) returns (a: Await, now: real, ghost p: Point)
      requires goal == Run(cfg, Abs(l, AtResume(false)), inbox)
      modifies this
      ensures |inbox| <= |old(inbox)| && linesSent == old(linesSent) && totalLines == old(totalLines)
      ensures a.Back? ==> goal == Run(cfg, Advance(cfg, Abs(l, PollBeforeLine), now), inbox)
      ensures a.Gone? ==> goal == Run(cfg, Raise(Abs(l, p), a.outcome, now), inbox)
      ensures a.TapeEnds? ==> goal == Abs(l, p) && Suspended(p) && !p.Finished? && inbox == []
    {
      hide DoCommand, Micro, Advance;
      var woken := false;
      now := 0.0;
      p := AtResume(false);
      while inbox != []
        invariant p == AtResume(woken) && goal == Run(cfg, Abs(l, p), inbox) && |inbox| <= |old(inbox)|
        invariant linesSent == old(linesSent) && totalLines == old(totalLines)
        decreases |inbox|
      {
        var e := inbox[0];
        ghost var s := Abs(l, p);
        inbox := inbox[1..];
        assert Run(cfg, Step(cfg, s, e), inbox) == goal;
        match e {
          case Command(op, t) =>
            p := Obey(op, t, l, p);
            woken := woken || !op.Pause?;
          case Wake(t, o) =>
            AdvanceTurn(cfg, Continue(cfg, s, t, o), t);
            if o.TaskCancelled? { return Gone(o), t, p; }
            if !o.Timer? && woken { return Back, t, p; }
        }
      }
      return TapeEnds, now, p;
    }

    /** Emit '?' if the poll interval has elapsed. A lost link is ignored here. */
    method MaybePoll(t: real, ghost l: Locals, ghost p: Point, ghost next: PollNext, ghost goal: Streamer)
      returns (a: Await, now: real)
      requires goal == Run(cfg, Advance(cfg, Poll(cfg, Abs(l, p), t, next), t), inbox)
      modifies this
      ensures |inbox| <= |old(inbox)| && linesSent == old(linesSent) && totalLines == old(totalLines)
      ensures a.Back? ==> goal == Run(cfg, Advance(cfg, Abs(l, AfterPoll(next)), now), inbox)
      ensures a.Gone? ==> goal == Run(cfg, Raise(Abs(l, AtPoll(next)), a.outcome, now), inbox)
      ensures a.TapeEnds? ==> goal == Abs(l, AtPoll(next)) && inbox == []
    {
      hide Advance, Run, Raise;
      var interval := cfg.pollInterval;
      if machineHold && !holdConfirmed && HOLD_POLL_INTERVAL < interval { interval := HOLD_POLL_INTERVAL; }
      if t - lastPoll < interval { return Back, t; }
      AdvanceTurn(cfg, Poll(cfg, Abs(l, p), t, next), t);
      lastPoll := t;
      history := Then(history, Polled(t));
      var w := Suspend(false, l, AtPoll(next));
      match w {
        case None => return TapeEnds, t;
        case Some(v) =>
          if v.1.Crash? || v.1.TaskCancelled? {
            RaiseRests(Abs(l, AtPoll(next)), v.1, v.0);
            return Gone(v.1), v.0;
          }
          return Back, v.0;
      }
    }

    /** The next message, or None on an idle tick. Status queries go on while the read waits. */
    method NextResponse(queue: seq<Message>, t: real, ghost l: Locals, ghost goal: Streamer)
      returns (a: Await, m: Option<Message>, rest: seq<Message>, now: real, ghost p: Point)
      requires l.pending == queue
      requires goal == Run(cfg, Advance(cfg, Abs(l, TakeMessage), t), inbox)
      modifies this
      ensures |inbox| <= |old(inbox)| && linesSent == old(linesSent) && totalLines == old(totalLines)
      ensures a.Back? && m.Some? ==>
                && (|inbox| < |old(inbox)| || (inbox == old(inbox) && |rest| < |queue|))
                && goal == Run(cfg, Advance(cfg, Handle(Abs(l.(pending := rest), TakeMessage), m.value, now), now),
                               inbox)
      ensures a.Back? && m.None? ==>
                && |inbox| < |old(inbox)| && rest == []
                && goal == Run(cfg, Advance(cfg, Abs(l.(pending := []), LoopTop()), now), inbox)
      ensures a.Gone? ==> goal == Run(cfg, Raise(Abs(l, p), a.outcome, now), inbox)
      ensures a.TapeEnds? ==> goal == Abs(l, p) && Suspended(p) && !p.Finished? && inbox == []
    {
      hide Handle, Run;
      p := TakeMessage;
      AdvanceTurn(cfg, Abs(l, TakeMessage), t);
      if queue != [] {
        return Back, Some(queue[0]), queue[1..], t, p;
      }
      now := t;
      history := Then(history, ReadBegan(t));
      while true
        invariant goal == Run(cfg, Abs(l, AtRead), inbox) && |inbox| <= |old(inbox)|
        invariant linesSent == old(linesSent) && totalLines == old(totalLines)
        decreases |inbox|
      {
        p := AtRead;
        var w := Suspend(true, l, AtRead);
        if w.None? { return TapeEnds, None, [], now, p; }
        now := w.value.0;
        match w.value.1 {
          case Done(ms) =>
            if ms == [] { return Back, None, [], now, p; }
            AdvanceTurn(cfg, Abs(l.(pending := ms), TakeMessage), now);
            return Back, Some(ms[0]), ms[1..], now, p;
          case Timer =>
            p := AtPoll(ToSameRead);
            history := Then(history, Ticked(now));
            a, now := MaybePoll(now, l, AtRead, ToSameRead, goal);
            if !a.Back? { return a, None, [], now, p; }
            AdvanceTurn(cfg, Abs(l, AtRead), now);
          case o => return Gone(o), None, [], now, p;
        }
      }
    }

    // ----- Messages ------------------------------------------------------------------------

    method BlankResult() returns (r: StreamerResult)
      ensures r == StreamerResult(false, false, None, None, None, linesSent, totalLines, None)
    {
      r := StreamerResult(false, false, None, None, None, linesSent, totalLines, None);
    }

    /** A report that supervision has passed, in the send loop: resync, or go on waiting. */
    method ReconcileWindow(r: StatusReport, now: real, l: Locals) returns (l': Locals, act: Act)
      modifies this
      ensures inbox == old(inbox) && Ctl() == old(Ctl()) && l'.pending == l.pending
      ensures Reaches(l', act, old(ResyncOrWait(Abs(l, TakeMessage), r, now)), now, SendHead)
    {
      l' := l;
      var phantom := BufferLooksPhantom(r, l');
      if phantom {
        l' := l'.(used := 0, lengths := []);
        rxDrainedPolls := 0;
        history := Then(history, PhantomResync);
        return l', SendNow;
      }
      if r.state == "Idle" {
        l' := l'.(idlePolls := l'.idlePolls + 1);
        if l'.idlePolls >= IDLE_COMPLETE_POLLS {
          if resumedFromHold {
            var blank := BlankResult();
            return l', Stop(blank.(message := Some(DroppedAfterHold)));
          }
          l' := l'.(used := 0, lengths := [], idlePolls := 0);
          history := Then(history, IdleResync);
          return l', SendNow;
        }
      } else {
        l' := l'.(idlePolls := 0);
      }
      return l', Again;
    }

    /** A parsed status report in the send loop. */
    method StatusInSendLoop(r: StatusReport, now: real, l: Locals) returns (l': Locals, act: Act)
      modifies this
      ensures inbox == old(inbox) && Ctl() == old(Ctl()) && l'.pending == l.pending
      ensures Reaches(l', act, old(StatusInSend(Abs(l, TakeMessage), r, now)), now, SendHead)
    {
      hide StatusCheck, PhantomCheck;
      var fault := StatusFault(r, now);
      if fault.Some? {
        var blank := BlankResult();
        return l, Stop(blank.(message := fault));
      }
      l', act := ReconcileWindow(r, now, l);
    }

    /** A parsed status report in the trailing drain. */
    method StatusInTrailLoop(r: StatusReport, now: real, l: Locals) returns (l': Locals, act: Act)
      modifies this
      ensures inbox == old(inbox) && Ctl() == old(Ctl()) && l'.pending == l.pending && !act.SendNow?
      ensures Reaches(l', act, old(StatusInTrail(Abs(l, TakeMessage), r, now)), now, TrailHead)
    {
      hide StatusCheck;
      l' := l;
      var fault := StatusFault(r, now);
      var blank := BlankResult();
      if fault.Some? { return l, Stop(blank.(message := fault)); }
      if r.state == "Idle" {
        l' := l'.(idlePolls := l'.idlePolls + 1);
        if l'.idlePolls >= IDLE_COMPLETE_POLLS {
          if resumedFromHold { return l', Stop(blank.(message := Some(DroppedAfterHold))); }
          history := Then(history, IdleCompletion);
          return l', Stop(blank.(completed := true));
        }
      } else {
        l' := l'.(idlePolls := 0);
      }
      return l', Again;
    }

    /** An ok in the send loop: progress, and the oldest line in flight is done. */
    method Acknowledge(now: real, l: Locals) returns (l': Locals)
      modifies this
      ensures Abs(l', SendHead) == old(AckInSend(Abs(l, TakeMessage), now))
      ensures inbox == old(inbox) && Ctl() == old(Ctl()) && l'.pending == l.pending
    {
      lastProgress := now;
      resumedFromHold := false;
      l' := l.(idlePolls := 0);
      rxDrainedPolls := 0;
      if l'.lengths != [] {
        l' := l'.(used := l'.used - l'.lengths[0], lengths := l'.lengths[1..]);
      }
    }

    /** One message in the send loop. */
    method HandleInSendLoop(m: Message, now: real, l: Locals) returns (l': Locals, act: Act)
      requires linesSent < |job.lines|
      modifies this
      ensures inbox == old(inbox) && Ctl() == old(Ctl()) && l'.pending == l.pending
      ensures Reaches(l', act, old(Handle(Abs(l, TakeMessage), m, now)), now, SendHead)
    {
      hide StatusInSend, StatusInTrail, EnterHold, AckInSend;
      l', act := l, Again;
      history := Then(history, Heard(m, now));
      match m {
        case Ok => l' := Acknowledge(now, l');
        case VendorFault(_) => EnterMachineHold(false, now);
        case ErrorReply(code) =>
          var blank := BlankResult();
          act := Stop(blank.(errorLine := Some(linesSent + 1), errorCode := Some(code)));
        case AlarmReply(code) =>
          var blank := BlankResult();
          act := Stop(blank.(alarmCode := code));
        case Status(r) => l', act := StatusInSendLoop(r, now, l');
        case Greeting =>
          if !cancelled {
            var blank := BlankResult();
            act := Stop(blank.(message := Some(UnexpectedReset)));
          }
        case _ =>
      }
    }

    /** One message in the trailing drain. */
    method HandleInTrailLoop(m: Message, now: real, l: Locals) returns (l': Locals, act: Act)
      requires linesSent >= |job.lines|
      modifies this
      ensures inbox == old(inbox) && Ctl() == old(Ctl()) && l'.pending == l.pending && !act.SendNow?
      ensures Reaches(l', act, old(Handle(Abs(l, TakeMessage), m, now)), now, TrailHead)
    {
      hide StatusInSend, StatusInTrail, EnterHold;
      l', act := l, Again;
      history := Then(history, Heard(m, now));
      match m {
        case Ok =>
          lastProgress := now;
          resumedFromHold := false;
          l' := l'.(idlePolls := 0, lengths := if l'.lengths == [] then [] else l'.lengths[1..]);
        case VendorFault(_) => EnterMachineHold(false, now);
        case ErrorReply(code) =>
          var blank := BlankResult();
          if l'.lengths != [] { l' := l'.(lengths := l'.lengths[1..]); }
          act := Stop(blank.(errorLine := Some(linesSent), errorCode := Some(code)));
        case AlarmReply(code) =>
          var blank := BlankResult();
          act := Stop(blank.(alarmCode := code));
        case Status(r) => l', act := StatusInTrailLoop(r, now, l');
        case Greeting =>
          if !cancelled {
            var blank := BlankResult();
            act := Stop(blank.(message := Some(UnexpectedReset)));
          }
        case _ =>
      }
    }

    /** The machine state a handled message leads to. */
    ghost predicate Reaches(l: Locals, act: Act, s: Streamer, now: real, head: Point)
      reads this
    {
      match act
      case Again => s == Abs(l, head)
      case SendNow => s == StartLine(Abs(l, head))
      case Stop(r) => s == Finish(Abs(l, head), r, now)
    }

    // ----- The loops -----------------------------------------------------------------------

    /** One turn of a drain loop up to its message: stop if cancelled or stalled, poll, read. */
    method AwaitMessage(t: real, l: Locals, ghost goal: Streamer)
      returns (flow: Option<Flow>, m: Option<Message>, rest: seq<Message>, now: real, ghost p: Point)
      requires goal == Run(cfg, Advance(cfg, Abs(l, WaitHead), t), inbox)
      modifies this
      ensures |inbox| <= |old(inbox)| && linesSent == old(linesSent) && totalLines == old(totalLines)
      ensures flow.None? && m.Some? ==>
                && (|inbox| < |old(inbox)| || |rest| < |l.pending|)
                && goal == Run(cfg, Advance(cfg, Handle(Abs(l.(pending := rest), TakeMessage), m.value, now), now),
                               inbox)
      ensures flow.None? && m.None? ==>
                && |inbox| < |old(inbox)| && rest == []
                && goal == Run(cfg, Advance(cfg, Abs(l.(pending := []), LoopTop()), now), inbox)
      ensures flow.Some? ==> Ends(goal, l, p, flow.value, now)
    {
      hide Handle, Advance, StallCheck, Poll;
      m, rest, now, p := None, [], t, WaitHead;
      AdvanceTurn(cfg, Abs(l, WaitHead), t);
      if cancelled {
        var blank := BlankResult();
        RestAfter(Abs(l, WaitHead), blank.(cancelled := true), t);
        return Some(Returned(blank.(cancelled := true))), m, rest, now, p;
      }
      var stall := StallFault(t);
      if stall.Some? {
        var blank := BlankResult();
        RestAfter(Abs(l, WaitHead), blank.(message := stall), t);
        return Some(Returned(blank.(message := stall))), m, rest, now, p;
      }
      history := Then(history, Waited(t));
      var a: Await;
      a, now := MaybePoll(t, l, WaitHead, ToRead, goal);
      if !a.Back? { return Some(FlowOf(a)), m, rest, now, AtPoll(ToRead); }
      a, m, rest, now, p := NextResponse(l.pending, now, l, goal);
      flow := if a.Back? then None else Some(FlowOf(a));
    }

    /** Where _stream_lines leaves the machine: finishing, raising, or suspended for good. */
    ghost predicate Ends(goal: Streamer, l: Locals, p: Point, flow: Flow, now: real)
      reads this
    {
      match flow
      case Returned(r) => goal == Run(cfg, Finish(Abs(l, p), r, now), inbox)
      case Raised(o) => goal == Run(cfg, Raise(Abs(l, p), o, now), inbox)
      case Unfinished => goal == Abs(l, p) && Suspended(p) && !p.Finished? && inbox == []
    }

    lemma RestAfter(s: Streamer, r: StreamerResult, now: real)
      ensures Advance(cfg, Finish(s, r, now), now) == Finish(s, r, now)
    {
    }

    static function FlowOf(a: Await): Flow
      requires !a.Back?
    {
      if a.Gone? then Raised(a.outcome) else Unfinished
    }

    /** The wait before a line: for the operator's pause to end, then a poll, then cancel(). */
    method ClearToSend(t: real, v: Locals, ghost goal: Streamer)
      returns (flow: Option<Flow>, now: real, ghost p: Point)
      requires linesSent < |job.lines|
      requires goal == Run(cfg, Advance(cfg, Abs(v, NextLine), t), inbox)
      modifies this
      ensures linesSent == old(linesSent)
      ensures flow.None? ==> goal == Run(cfg, Advance(cfg, Abs(v.(idlePolls := 0), SendHead), now), inbox)
      ensures flow.Some? ==> Ends(goal, v, p, flow.value, now)
    {
      hide Handle, Advance, Finish, Raise, StallCheck, Poll, Run;
      now, p := t, NextLine;
      AdvanceTurn(cfg, Abs(v, NextLine), now);
      var a: Await;
      if paused {
        AdvanceTurn(cfg, Abs(v, AtResume(false)), now);
        a, now, p := WaitResume(v, goal);
        if !a.Back? { return Some(FlowOf(a)), now, p; }
      }
      AdvanceTurn(cfg, Abs(v, PollBeforeLine), now);
      history := Then(history, Ready(now));
      a, now := MaybePoll(now, v, PollBeforeLine, ToCheck, goal);
      if !a.Back? { return Some(FlowOf(a)), now, AtPoll(ToCheck); }
      AdvanceTurn(cfg, Abs(v, CheckCancel), now);
      if cancelled {
        var blank := BlankResult();
        RestAfter(Abs(v, CheckCancel), blank.(cancelled := true), now);
        return Some(Returned(blank.(cancelled := true))), now, CheckCancel;
      }
      flow := None;
    }

    /** Write the next line and count it in flight. */
    method WriteLine(v0: Locals, ghost goal: Streamer)
      returns (flow: Option<Flow>, v: Locals, now: real)
      requires linesSent < |job.lines|
      requires goal == Run(cfg, StartLine(Abs(v0, SendHead)), inbox)
      modifies this
      ensures flow.None? ==>
                && linesSent == old(linesSent) + 1
                && goal == Run(cfg, Advance(cfg, Abs(v, NextLine), now), inbox)
      ensures flow.Some? ==> Ends(goal, v, AtWrite, flow.value, now)
    {
      hide Advance, Finish, Raise, Run;
      v, now := v0, 0.0;
      history := Then(history, LineStarted(linesSent));
      var w := Suspend(false, v, AtWrite);
      if w.None? { return Some(Unfinished), v, now; }
      now := w.value.0;
      if !w.value.1.Done? {
        RaiseRests(Abs(v, AtWrite), w.value.1, now);
        return Some(Raised(w.value.1)), v, now;
      }
      var lineBytes := LineBytes(job.lines[linesSent]);
      v := v.(used := v.used + lineBytes, lengths := v.lengths + [lineBytes]);
      linesSent := linesSent + 1;
      flow := None;
    }

    /** _stream_lines: send each line when it fits, then drain the trailing acknowledgements. */
    method StreamLines(t: real, ghost goal: Streamer)
      returns (flow: Flow, now: real, ghost l: Locals, ghost p: Point)
      requires linesSent == 0
      requires goal == Run(cfg, Advance(cfg, Abs(Locals(0, [], 0, []), NextLine), t), inbox)
      modifies this
      ensures Ends(goal, l, p, flow, now)
    {
      hide Handle, Advance, Finish, Raise, Run;
      var v := Locals(0, [], 0, []);
      now, l, p := t, v, NextLine;
      while linesSent < |job.lines|
        invariant goal == Run(cfg, Advance(cfg, Abs(v, NextLine), now), inbox)
      {
        var early: Option<Flow>;
        early, now, p := ClearToSend(now, v, goal);
        if early.Some? { return early.value, now, v, p; }
        v := v.(idlePolls := 0);
        early, v, now, p := DrainForRoom(now, v, goal);
        if early.Some? { return early.value, now, v, p; }
        early, v, now := WriteLine(v, goal);
        if early.Some? { return early.value, now, v, AtWrite; }
      }
      AdvanceTurn(cfg, Abs(v, NextLine), now);
      v := v.(idlePolls := 0);
      flow, now, l, p := DrainTrailing(now, v, goal);
    }

    lemma RaiseRests(s: Streamer, o: Outcome, now: real)
      ensures Advance(cfg, Raise(s, o, now), now) == Raise(s, o, now)
    {
    }

    /** The send loop's drain: take messages until the next line fits, or a resync says it does. */
    method DrainForRoom(t: real, v0: Locals, ghost goal: Streamer)
      returns (early: Option<Flow>, v: Locals, now: real, ghost p: Point)
      requires linesSent < |job.lines|
      requires goal == Run(cfg, Advance(cfg, Abs(v0, SendHead), t), inbox)
      modifies this
      ensures linesSent == old(linesSent)
      ensures early.Some? ==> Ends(goal, v, p, early.value, now)
      ensures early.None? ==> goal == Run(cfg, StartLine(Abs(v, SendHead)), inbox)
    {
      hide Handle, Advance, Finish, Raise, WaitTurn;
      v, now, p := v0, t, SendHead;
      var lineBytes := LineBytes(job.lines[linesSent]);
      while v.used + lineBytes > cfg.rxSize
        invariant linesSent == old(linesSent)
        invariant goal == Run(cfg, Advance(cfg, Abs(v, SendHead), now), inbox)
        decreases |inbox|, |v.pending|
      {
        AdvanceTurn(cfg, Abs(v, SendHead), now);
        var m, rest;
        early, m, rest, now, p := AwaitMessage(now, v, goal);
        if early.Some? { return; }
        v := v.(pending := rest);
        if m.None? { continue; }
        var act;
        v, act := HandleInSendLoop(m.value, now, v);
        match act {
          case Again =>
          case SendNow =>
            AdvanceTurn(cfg, StartLine(Abs(v, SendHead)), now);
            return None, v, now, SendHead;
          case Stop(r) =>
            RestAfter(Abs(v, SendHead), r, now);
            return Some(Returned(r)), v, now, SendHead;
        }
      }
      AdvanceTurn(cfg, Abs(v, SendHead), now);
      AdvanceTurn(cfg, StartLine(Abs(v, SendHead)), now);
      early := None;
    }

    /** The trailing drain: all lines are on the machine, wait for their acknowledgements. */
    method DrainTrailing(t: real, v0: Locals, ghost goal: Streamer)
      returns (flow: Flow, now: real, v: Locals, ghost p: Point)
      requires linesSent >= |job.lines|
      requires goal == Run(cfg, Advance(cfg, Abs(v0, TrailHead), t), inbox)
      modifies this
      ensures Ends(goal, v, p, flow, now)
    {
      hide Handle, Advance, Finish, Raise, WaitTurn;
      v, now, p := v0, t, TrailHead;
      while v.lengths != []
        invariant linesSent == old(linesSent)
        invariant goal == Run(cfg, Advance(cfg, Abs(v, TrailHead), now), inbox)
        decreases |inbox|, |v.pending|
      {
        AdvanceTurn(cfg, Abs(v, TrailHead), now);
        var early, m, rest;
        early, m, rest, now, p := AwaitMessage(now, v, goal);
        if early.Some? { return early.value, now, v, p; }
        v := v.(pending := rest);
        if m.None? { continue; }
        var act;
        v, act := HandleInTrailLoop(m.value, now, v);
        if act.Stop? {
          RestAfter(Abs(v, TrailHead), act.result, now);
          return Returned(act.result), now, v, TrailHead;
        }
      }
      AdvanceTurn(cfg, Abs(v, TrailHead), now);
      var blank := BlankResult();
      RestAfter(Abs(v, TrailHead), blank.(completed := true), now);
      return Returned(blank.(completed := true)), now, v, TrailHead;
    }

    // ----- run() ---------------------------------------------------------------------------

    /** Drive the whole life of the job and give the result to on_done: None if the tape ends
        while the run is still suspended. The outcome and the history are the machine's. */
    method RunJob() returns (reported: Option<StreamerResult>, ghost end: Streamer)
      requires linesSent == 0 && totalLines == 0
      modifies this
      ensures end == old(Run(cfg, Abs(Locals(0, [], 0, []), Loading), inbox))
      ensures reported == ReportedBy(end)
      ensures history == end.history && TheWatch() == end.watch && Ctl() == end.ctl
    {
      hide Advance, Handle, Run;
      ghost var l := Locals(0, [], 0, []);
      ghost var p := Loading;
      end := Run(cfg, Abs(l, Loading), inbox);
      var w := Suspend(false, l, Loading);
      if w.None? { return None, end; }
      var now := w.value.0;
      var flow := Raised(w.value.1);
      AdvanceTurn(cfg, Continue(cfg, Abs(l, Loading), now, w.value.1), now);
      if w.value.1.Done? {
        totalLines := |job.lines|;
        if job.dwell.None? {
          flow := Raised(Crash);
        } else {
          lastProgress := now;
          history := Then(history, Began(now));
          flow, now, l, p := StreamLines(now, end);
        }
      }
      reported := Conclude(flow, now, l, p, end);
    }

    /** The except and finally clauses of run(): the fail-safe for a fault, then on_done. */
    method Conclude(flow: Flow, now: real, ghost l: Locals, ghost p: Point, ghost end: Streamer)
      returns (reported: Option<StreamerResult>)
      requires Ends(end, l, p, flow, now)
      modifies this
      ensures reported == ReportedBy(end)
      ensures history == end.history && TheWatch() == end.watch && Ctl() == end.ctl
    {
      hide Advance, Handle;
      if flow.Unfinished? { return None; }
      var result := BlankResult();
      match flow {
        case Returned(r) => result := r;
        case Raised(o) =>
          history := Then(history, Broke(o, now));
          result := if o.Crash? then result.(message := Some(InternalError)) else result.(cancelled := true);
        case Unfinished =>
      }
      if IsFault(result) {
        history := Then(history, ResetTried(result, now));
        var w := Suspend(false, l, AtFailsafe(result));
        if w.None? { return None; }
        AdvanceTurn(cfg, Continue(cfg, Abs(l, AtFailsafe(result)), w.value.0, w.value.1), w.value.0);
        if w.value.1.TaskCancelled? {
          history := Then(history, Interrupted);
          var blank := BlankResult();
          result := blank.(cancelled := true);
        }
      }
      history := Then(history, Reported(result));
      FinishedStays(cfg, Abs(l, Finished(result)), inbox);
      return Some(result);
    }
  }

  /** What a run has reported so far. */
  function ReportedBy(s: Streamer): Option<StreamerResult> {
    if s.point.Finished? then Some(s.point.result) else None
  }

  /** Make a streamer and run a job over a tape of events. The result it reports and the
      history it leaves are those the theorems of StreamerRuns speak of. */
  method StreamJob(cfg: Config, job: Job, now: real, tape: seq<Event>)
    returns (reported: Option<StreamerResult>, ghost history: History)
    ensures reported == ReportedBy(RunOf(cfg, job, now, tape))
    ensures history == RunOf(cfg, job, now, tape).history
    ensures Lawful(cfg, job, history)
    ensures Reports(history) == if reported.Some? then 1 else 0
    ensures Wire(job.lines, history) <= job.lines
    ensures reported.Some? && reported.value.completed ==> Wire(job.lines, history) == job.lines && Resets(history) == 0
    ensures reported.Some? && IsFault(reported.value) ==> Resets(history) == 1
  {
    hide Run, Lawful;
    var streamer := new GrblStreamer(cfg, job, now, tape);
    ghost var end;
    reported, end := streamer.RunJob();
    history := end.history;
    EveryRunIsLawful(cfg, job, now, tape);
    EveryRunReportsOnce(cfg, job, now, tape);
    EveryRunWritesAPrefix(cfg, job, now, tape);
  }
}
