/** The streaming run of one job (GrblStreamer.run and _stream_lines) as an event machine.

    A run consumes a tape of events: operator commands, which may arrive at any await, and
    Wake events, each of which completes the await the run is suspended at. `Step` says what one
    event does; between two awaits the program runs `Micro` steps, from one labelled
    point of the program to the next, until it suspends again.

    `history` records what was heard, sent and decided. It never influences the run: the
    theorems about runs compare it with what the machine did. */
module StreamerModel {
  import opened Options
  import opened GrblMessages

  const IDLE_COMPLETE_POLLS := 3
  const RX_DRAINED_MARGIN := 8
  const RESUME_GRACE_S := 1.5
  const LASER_ON_HELD_POLLS := 2
  const HOLD_POLL_INTERVAL := 0.1

  datatype Config = Config(rxSize: int, pollInterval: real, stallTimeout: real, holdConfirm: real)

  /** What is streamed. `dwell` is the longest G4 dwell, None if a dwell has no readable number. */
  datatype Job = Job(lines: seq<string>, dwell: Option<real>)

  datatype Operator = Pause | Resume | Cancel

  datatype Fault =
    | AlarmState
    | HoldMoving
    | HoldLaserOn
    | HoldUnconfirmed
    | SupervisionLost
    | Stalled
    | DroppedAfterHold
    | UnexpectedReset
    | InternalError

  datatype StreamerResult = StreamerResult(
    completed: bool,
    cancelled: bool,
    errorLine: Option<nat>,
    errorCode: Option<int>,
    alarmCode: Option<int>,
    linesSent: nat,
    totalLines: nat,
    message: Option<Fault>)

  /** How the await a run is suspended at comes back. */
  datatype Outcome =
    | Done(messages: seq<Message>)  // the write finished, or the read gave these messages
    | Timer                         // the poll timer fired while the read goes on
    | LinkLost                      // SerialDisconnectedError
    | Crash                         // any other exception
    | TaskCancelled                 // asyncio.CancelledError

  datatype Event =
    | Command(op: Operator, at: real)
    | Wake(at: real, outcome: Outcome)

  datatype Entry =
    | Began(now: real)
    | Heard(msg: Message, now: real)
    | HoldBegan(now: real)
    | HoldEnded(now: real)
    | Commanded(op: Operator, now: real)
    | Ready(now: real)               // the next line is up, and no pause holds it back
    | Waited(now: real)              // a turn of a drain loop passed its checks
    | Polled(now: real)
    | ReadBegan(now: real)
    | Ticked(now: real)              // the poll timer fired beside a read
    | Broke(outcome: Outcome, now: real)  // an exception came out of an await, or out of the dwells
    | LineStarted(index: nat)
    | PhantomResync
    | IdleResync
    | IdleCompletion
    | ResetTried(reason: StreamerResult, now: real)
    | Interrupted                     // run() itself cancelled during the fail-safe write
    | Reported(result: StreamerResult)

  /** What happened, newest entry outermost; `Created` is the moment the streamer was made. */
  datatype History = Created(now: real) | Then(before: History, last: Entry)

  /** The supervision fields: position, progress clock, machine hold. */
  datatype Watch = Watch(
    lastPos: Option<Position>,
    lastProgress: real,
    lastStatusTime: real,
    hold: bool,
    holdStarted: real,
    holdConfirmed: bool,
    holdFromStatus: bool,
    laserOnPolls: nat,
    graceUntil: real,
    resumedFromHold: bool)

  /** The character-counting window and the resync counters. */
  datatype Window = Window(
    used: int,
    lengths: seq<nat>,
    idlePolls: nat,
    capacity: int,
    drainedPolls: nat)

  datatype Control = Control(paused: bool, cancelled: bool, sent: nat, total: nat, lastPoll: real)

  /** Where a poll write returns to. */
  datatype PollNext = ToCheck | ToRead | ToSameRead

  /** Program points. The first group are awaits; at the others the program is running. */
  datatype Point =
    | Loading
    | AtResume(woken: bool)
    | AtPoll(next: PollNext)
    | AtRead
    | AtWrite
    | AtFailsafe(pendingResult: StreamerResult)
    | Finished(result: StreamerResult)
    | NextLine
    | PollBeforeLine
    | CheckCancel
    | SendHead
    | TrailHead
    | WaitHead
    | TakeMessage

  datatype Streamer = Streamer(
    job: Job,
    ctl: Control,
    watch: Watch,
    win: Window,
    pending: seq<Message>,
    point: Point,
    history: History)

  predicate Suspended(p: Point) {
    p.Loading? || p.AtResume? || p.AtPoll? || p.AtRead? || p.AtWrite? || p.AtFailsafe? || p.Finished?
  }

  // ----- Sizes ---------------------------------------------------------------------------

  /** Bytes of a character in UTF-8. */
  function Utf8Width(c: char): nat {
    if c < '\U{80}' then 1 else if c < '\U{800}' then 2 else if c < '\U{10000}' then 3 else 4
  }

  function Utf8Length(s: string): nat {
    if s == [] then 0 else Utf8Width(s[0]) + Utf8Length(s[1..])
  }

  /** Bytes a line takes in the controller's RX buffer, newline included. */
  function LineBytes(line: string): (n: nat)
    ensures n >= 1
  {
    Utf8Length(line) + 1
  }

  function Sum(lengths: seq<nat>): nat {
    if lengths == [] then 0 else lengths[0] + Sum(lengths[1..])
  }

  // ----- Supervision -----------------------------------------------------------------------

  function Note(s: Streamer, e: Entry): Streamer {
    s.(history := Then(s.history, e))
  }

  /** Record the beginning and the end of a machine hold, if one report brought them about. */
  function MarkHold(h: History, v: Verdict, now: real): History {
    var h1 := if v.began then Then(h, HoldBegan(now)) else h;
    if v.ended then Then(h1, HoldEnded(now)) else h1
  }

  predicate Moved(w: Watch, r: StatusReport) {
    ReportedPosition(r).Some? && ReportedPosition(r) != w.lastPos
  }

  function EnterHold(w: Watch, fromStatus: bool, now: real): Watch {
    if w.hold then w
    else w.(hold := true, holdFromStatus := fromStatus, holdStarted := now,
            holdConfirmed := false, laserOnPolls := 0)
  }

  datatype Verdict = Verdict(watch: Watch, fault: Option<Fault>, began: bool, ended: bool)

  /** _machine_hold_check: one report while the machine is held. */
  function HoldCheck(w: Watch, r: StatusReport, moved: bool, now: real): Verdict {
    var held := Held(r.state);
    if LeavingHold(r.state) && (w.holdConfirmed || w.holdFromStatus) then
      Verdict(w.(hold := false, holdConfirmed := false, holdFromStatus := false,
                 resumedFromHold := true, lastProgress := now), None, false, true)
    else if held && moved && w.holdConfirmed then
      Verdict(w, Some(HoldMoving), false, false)
    else if held && !moved && LaserPower(r) == Some(true) then
      var w' := w.(laserOnPolls := w.laserOnPolls + 1);
      Verdict(w', if w'.laserOnPolls >= LASER_ON_HELD_POLLS then Some(HoldLaserOn) else None, false, false)
    else
      var w' := w.(laserOnPolls := 0);
      if !w.holdConfirmed && held && !moved && LaserPower(r) == Some(false)
      then Verdict(w'.(holdConfirmed := true), None, false, false)
      else Verdict(w', None, false, false)
  }

  /** Take in the time and the position of a report. */
  function Observe(w: Watch, r: StatusReport, now: real): Watch {
    w.(lastStatusTime := now,
       lastPos := if Moved(w, r) then ReportedPosition(r) else w.lastPos,
       lastProgress := if Moved(w, r) then now else w.lastProgress)
  }

  /** _status_fault: what one parsed status report means for supervision. */
  function StatusCheck(w: Watch, paused: bool, r: StatusReport, now: real): Verdict {
    var w1 := Observe(w, r, now);
    if "Alarm" <= r.state then Verdict(w1, Some(AlarmState), false, false)
    else if !w1.hold && HoldLike(r.state) && !paused && now >= w1.graceUntil then
      HoldCheck(EnterHold(w1, true, now), r, Moved(w, r), now).(began := true)
    else if w1.hold then HoldCheck(w1, r, Moved(w, r), now)
    else Verdict(w1, None, false, false)
  }

  /** _stall_fault: checked on every turn of either drain loop. */
  function StallCheck(c: Config, dwell: real, w: Watch, paused: bool, now: real): (Watch, Option<Fault>) {
    if w.hold then
      if !w.holdConfirmed then
        (w, if now - w.holdStarted >= c.holdConfirm then Some(HoldUnconfirmed) else None)
      else if now - w.lastStatusTime >= c.stallTimeout then (w, Some(SupervisionLost))
      else (w.(lastProgress := now), None)
    else if paused then (w.(lastProgress := now), None)
    else if now - w.lastProgress < c.stallTimeout + dwell then (w, None)
    else (w, Some(Stalled))
  }

  /** _buffer_looks_phantom: the window after one report, and whether the streak proves drift. */
  function PhantomCheck(win: Window, r: StatusReport): (Window, bool) {
    if r.bf.None? then (win, false) else
    var free := r.bf.value.1;
    var capacity := if free > win.capacity then free else win.capacity;
    if capacity == 0 || win.used <= 0 || capacity - free > RX_DRAINED_MARGIN then
      (win.(capacity := capacity, drainedPolls := 0), false)
    else
      var win' := win.(capacity := capacity, drainedPolls := win.drainedPolls + 1);
      (win', win'.drainedPolls >= IDLE_COMPLETE_POLLS)
  }

  function CurrentPollInterval(c: Config, w: Watch): real {
    if w.hold && !w.holdConfirmed && HOLD_POLL_INTERVAL < c.pollInterval
    then HOLD_POLL_INTERVAL else c.pollInterval
  }

  predicate PollDue(c: Config, s: Streamer, now: real) {
    now - s.ctl.lastPoll >= CurrentPollInterval(c, s.watch)
  }

  // ----- Ending a run ----------------------------------------------------------------------

  function BlankResult(s: Streamer): StreamerResult {
    StreamerResult(false, false, None, None, None, s.ctl.sent, s.ctl.total, None)
  }

  function CancelledResult(s: Streamer): StreamerResult {
    BlankResult(s).(cancelled := true)
  }

  function FaultResult(s: Streamer, f: Fault): StreamerResult {
    BlankResult(s).(message := Some(f))
  }

  predicate IsFault(r: StreamerResult) {
    !r.completed && !r.cancelled
  }

  /** Report the result: `finally: self._on_done(result)`. */
  function Report(s: Streamer, r: StreamerResult): Streamer {
    Note(s, Reported(r)).(point := Finished(r))
  }

  /** A result of streaming: a fault first tries the fail-safe soft reset. */
  function Finish(s: Streamer, r: StreamerResult, now: real): Streamer {
    if IsFault(r) then Note(s, ResetTried(r, now)).(point := AtFailsafe(r)) else Report(s, r)
  }

  /** An exception that leaves _stream_lines or _load_lines. */
  function Raise(s: Streamer, o: Outcome, now: real): Streamer {
    var b := Note(s, Broke(o, now));
    if o.Crash? then Finish(b, FaultResult(s, InternalError), now) else Report(b, CancelledResult(s))
  }

  // ----- Messages --------------------------------------------------------------------------

  /** Start writing line number `sent`. */
  function StartLine(s: Streamer): Streamer {
    Note(s, LineStarted(s.ctl.sent)).(point := AtWrite)
  }

  function ClearWindow(win: Window): Window {
    win.(used := 0, lengths := [])
  }

  /** An ok, in the send loop. */
  function AckInSend(s: Streamer, now: real): Streamer {
    var win := s.win.(idlePolls := 0, drainedPolls := 0);
    s.(watch := s.watch.(lastProgress := now, resumedFromHold := false),
       win := if win.lengths == [] then win
              else win.(used := win.used - win.lengths[0], lengths := win.lengths[1..]),
       point := SendHead)
  }

  /** An ok, in the trailing drain; `used` is no longer maintained there. */
  function AckInTrail(s: Streamer, now: real): Streamer {
    s.(watch := s.watch.(lastProgress := now, resumedFromHold := false),
       win := s.win.(idlePolls := 0, lengths := if s.win.lengths == [] then [] else s.win.lengths[1..]),
       point := TrailHead)
  }

  /** A vendor ERROR line begins a machine hold unless one is on. */
  function VendorHold(s: Streamer, now: real, back: Point): Streamer {
    var s' := s.(watch := EnterHold(s.watch, false, now), point := back);
    if s.watch.hold then s' else Note(s', HoldBegan(now))
  }

  /** A report in the send loop that supervision has passed: resync, or go on waiting. */
  function ResyncOrWait(s: Streamer, r: StatusReport, now: real): Streamer {
    var (win, phantom) := PhantomCheck(s.win, r);
    if phantom then
      StartLine(Note(s.(win := ClearWindow(win).(drainedPolls := 0)), PhantomResync))
    else if r.state != "Idle" then
      s.(win := win.(idlePolls := 0), point := SendHead)
    else
      var s1 := s.(win := win.(idlePolls := win.idlePolls + 1));
      if s1.win.idlePolls < IDLE_COMPLETE_POLLS then s1.(point := SendHead)
      else if s1.watch.resumedFromHold then Finish(s1, FaultResult(s1, DroppedAfterHold), now)
      else StartLine(Note(s1.(win := ClearWindow(win).(idlePolls := 0)), IdleResync))
  }

  /** A parsed status report, in the send loop. */
  function StatusInSend(s: Streamer, r: StatusReport, now: real): Streamer {
    var v := StatusCheck(s.watch, s.ctl.paused, r, now);
    var s1 := s.(watch := v.watch, history := MarkHold(s.history, v, now));
    if v.fault.Some? then Finish(s1, FaultResult(s1, v.fault.value), now)
    else ResyncOrWait(s1, r, now)
  }

  /** A report in the trailing drain that supervision has passed: the job is done, or wait on. */
  function CompleteOrWait(s: Streamer, r: StatusReport, now: real): Streamer {
    if r.state != "Idle" then s.(win := s.win.(idlePolls := 0), point := TrailHead)
    else
      var s1 := s.(win := s.win.(idlePolls := s.win.idlePolls + 1));
      if s1.win.idlePolls < IDLE_COMPLETE_POLLS then s1.(point := TrailHead)
      else if s1.watch.resumedFromHold then Finish(s1, FaultResult(s1, DroppedAfterHold), now)
      else Finish(Note(s1, IdleCompletion), BlankResult(s1).(completed := true), now)
  }

  /** A parsed status report, in the trailing drain. */
  function StatusInTrail(s: Streamer, r: StatusReport, now: real): Streamer {
    var v := StatusCheck(s.watch, s.ctl.paused, r, now);
    var s1 := s.(watch := v.watch, history := MarkHold(s.history, v, now));
    if v.fault.Some? then Finish(s1, FaultResult(s1, v.fault.value), now)
    else CompleteOrWait(s1, r, now)
  }

  predicate Sending(s: Streamer) {
    s.ctl.sent < |s.job.lines|
  }

  /** What one message does, in either loop. */
  function Handle(s: Streamer, m: Message, now: real): Streamer {
    var h := Note(s, Heard(m, now));
    var back := if Sending(s) then SendHead else TrailHead;
    match m
    case Ok => if Sending(s) then AckInSend(h, now) else AckInTrail(h, now)
    case VendorFault(_) => VendorHold(h, now, back)
    case ErrorReply(code) =>
      var line: nat := if Sending(s) then s.ctl.sent + 1 else s.ctl.sent;
      var h' := if Sending(s) || h.win.lengths == [] then h
                else h.(win := h.win.(lengths := h.win.lengths[1..]));
      Finish(h', BlankResult(s).(errorLine := Some(line), errorCode := Some(code)), now)
    case AlarmReply(code) => Finish(h, BlankResult(s).(alarmCode := code), now)
    case Status(r) => if Sending(s) then StatusInSend(h, r, now) else StatusInTrail(h, r, now)
    case Greeting =>
      if s.ctl.cancelled then h.(point := back) else Finish(h, FaultResult(s, UnexpectedReset), now)
    case _ => h.(point := back)
  }

  // ----- Running between awaits ------------------------------------------------------------

  /** Emit '?' if it is due, and go on at `next` (with no await if it is not due). */
  function Poll(c: Config, s: Streamer, now: real, next: PollNext): Streamer {
    if PollDue(c, s, now) then
      Note(s, Polled(now)).(ctl := s.ctl.(lastPoll := now), point := AtPoll(next))
    else s.(point := AfterPoll(next))
  }

  function AfterPoll(next: PollNext): Point {
    match next
    case ToCheck => CheckCancel
    case ToRead => TakeMessage
    case ToSameRead => AtRead
  }

  /** One turn of a drain loop up to its read. */
  function WaitTurn(c: Config, s: Streamer, now: real): Streamer {
    if s.ctl.cancelled then Finish(s, CancelledResult(s), now) else
    var (w, fault) := StallCheck(c, Dwell(s.job), s.watch, s.ctl.paused, now);
    var s1 := s.(watch := w);
    if fault.Some? then Finish(s1, FaultResult(s1, fault.value), now)
    else Poll(c, Note(s1, Waited(now)), now, ToRead)
  }

  function Dwell(job: Job): real {
    if job.dwell.Some? then job.dwell.value else 0.0
  }

  /** From one program point to the next. */
  function Micro(c: Config, s: Streamer, now: real): Streamer
    requires !Suspended(s.point)
  {
    match s.point
    case NextLine =>
      if !Sending(s) then s.(win := s.win.(idlePolls := 0), point := TrailHead)
      else if s.ctl.paused then s.(point := AtResume(false))
      else s.(point := PollBeforeLine)
    case PollBeforeLine => Poll(c, Note(s, Ready(now)), now, ToCheck)
    case CheckCancel =>
      if s.ctl.cancelled then Finish(s, CancelledResult(s), now)
      else s.(win := s.win.(idlePolls := 0), point := SendHead)
    case SendHead =>
      if Sending(s) && s.win.used + LineBytes(s.job.lines[s.ctl.sent]) <= c.rxSize then StartLine(s)
      else s.(point := WaitHead)
    case TrailHead =>
      if s.win.lengths == [] then Finish(s, BlankResult(s).(completed := true), now)
      else s.(point := WaitHead)
    case WaitHead => WaitTurn(c, s, now)
    case TakeMessage =>
      if s.pending == [] then Note(s, ReadBegan(now)).(point := AtRead)
      else Handle(s.(pending := s.pending[1..]), s.pending[0], now)
  }

  function Rank(p: Point): nat {
    match p
    case NextLine => 6
    case PollBeforeLine => 5
    case CheckCancel => 4
    case SendHead => 3
    case TrailHead => 3
    case WaitHead => 2
    case TakeMessage => 1
    case _ => 0
  }

  /** A message sends the run back to the head of its loop or to an await. */
  lemma HandleReturns(s: Streamer, m: Message, now: real)
    ensures var s' := Handle(s, m, now);
            s'.pending == s.pending && (s'.point.SendHead? || s'.point.TrailHead? || Suspended(s'.point))
  {
    if m.Status? {
      var h := Note(s, Heard(m, now));
      if Sending(s) {
        assert StatusInSend(h, m.report, now).pending == s.pending;
      } else {
        assert StatusInTrail(h, m.report, now).pending == s.pending;
      }
    }
  }

  lemma MicroAdvances(c: Config, s: Streamer, now: real)
    requires !Suspended(s.point)
    ensures var s' := Micro(c, s, now);
            |s'.pending| < |s.pending| || (s'.pending == s.pending && Rank(s'.point) < Rank(s.point))
  {
    if s.point.TakeMessage? && s.pending != [] {
      HandleReturns(s.(pending := s.pending[1..]), s.pending[0], now);
    }
  }

  /** Run to the next await. */
  function Advance(c: Config, s: Streamer, now: real): Streamer
    decreases |s.pending|, Rank(s.point)
  {
    if Suspended(s.point) then s
    else
      MicroAdvances(c, s, now);
      Advance(c, Micro(c, s, now), now)
  }

  lemma AdvanceTurn(c: Config, s: Streamer, now: real)
    ensures Advance(c, s, now) == if Suspended(s.point) then s else Advance(c, Micro(c, s, now), now)
  {
  }

  // ----- Events ----------------------------------------------------------------------------

  /** pause(), resume() and cancel(), called while the run is suspended. */
  function DoCommand(s: Streamer, op: Operator, now: real): Streamer {
    var s1 := Note(s, Commanded(op, now));
    var wake := if s.point.AtResume? then AtResume(true) else s.point;
    match op
    case Pause => s1.(ctl := s.ctl.(paused := true))
    case Resume => s1.(ctl := s.ctl.(paused := false), point := wake,
                       watch := s.watch.(lastProgress := now, graceUntil := now + RESUME_GRACE_S))
    case Cancel => s1.(ctl := s.ctl.(cancelled := true, paused := false), point := wake)
  }

  /** The line's write has finished. */
  function LineWritten(s: Streamer): Streamer {
    if !Sending(s) then s.(point := NextLine) else
    var n := LineBytes(s.job.lines[s.ctl.sent]);
    s.(ctl := s.ctl.(sent := s.ctl.sent + 1),
       win := s.win.(used := s.win.used + n, lengths := s.win.lengths + [n]),
       point := NextLine)
  }

  /** The program point where an await's completion continues; `Advance` runs on from there. */
  function Continue(c: Config, s: Streamer, now: real, o: Outcome): Streamer {
    match s.point
    case Finished(_) => s
    case AtFailsafe(r) =>
      if o.Timer? then s
      else if o.TaskCancelled? then Report(Note(s, Interrupted), CancelledResult(s))
      else Report(s, r)
    case Loading =>
      if o.Timer? then s
      else if !o.Done? then Raise(s, o, now)
      else
        var s1 := s.(ctl := s.ctl.(total := |s.job.lines|));
        if s.job.dwell.None? then Raise(s1, Crash, now)
        else Note(s1, Began(now)).(watch := s1.watch.(lastProgress := now), point := NextLine)
    case AtResume(woken) =>
      if o.TaskCancelled? then Raise(s, o, now)
      else if !o.Timer? && woken then s.(point := PollBeforeLine)
      else s
    case AtPoll(next) =>
      if o.Timer? then s
      else if o.Crash? || o.TaskCancelled? then Raise(s, o, now)
      else s.(point := AfterPoll(next))
    case AtWrite =>
      if o.Timer? then s
      else if !o.Done? then Raise(s, o, now)
      else LineWritten(s)
    case AtRead =>
      if o.Timer? then Poll(c, Note(s, Ticked(now)), now, ToSameRead)
      else if !o.Done? then Raise(s, o, now)
      else if o.messages == [] then s.(point := if Sending(s) then SendHead else TrailHead)
      else s.(pending := o.messages, point := TakeMessage)
    case _ => s
  }

  function Step(c: Config, s: Streamer, e: Event): Streamer {
    match e
    case Command(op, now) => if s.point.Finished? then s else DoCommand(s, op, now)
    case Wake(now, o) => Advance(c, Continue(c, s, now, o), now)
  }

  function Run(c: Config, s: Streamer, tape: seq<Event>): Streamer
    decreases |tape|
  {
    if tape == [] then s else Run(c, Step(c, s, tape[0]), tape[1..])
  }

  /** A run that has reported takes no further event. */
  lemma {:induction false} FinishedStays(c: Config, s: Streamer, tape: seq<Event>)
    requires s.point.Finished?
    ensures Run(c, s, tape) == s
    decreases |tape|
  {
    if tape == [] {
    } else {
      FinishedStays(c, s, tape[1..]);
    }
  }

  /** A streamer just made at time t0, its run() about to load the file. */
  function Init(job: Job, t0: real): Streamer {
    Streamer(job,
             Control(false, false, 0, 0, 0.0),
             Watch(None, t0, t0, false, 0.0, false, false, 0, 0.0, false),
             Window(0, [], 0, 0, 0),
             [],
             Loading,
             Created(t0))
  }
}
