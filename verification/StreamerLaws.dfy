/** What a streaming run's history has to look like, said without the streamer's own counters:
    each entry that is a decision must be justified by what was heard and commanded before it. */
module StreamerLaws {
  import opened Options
  import opened GrblMessages
  import opened StreamerModel

  // ----- What a report says ----------------------------------------------------------------
  // Said over the report's fields, beside the program's own readers of them.

  /** Where the head is: machine coordinates if the report gives them, else work coordinates. */
  ghost function Place(r: StatusReport): Option<Position> {
    match r.mpos
    case Some(_) => r.mpos
    case None => r.wpos
  }

  /** The accessories a report lists hold one of two letters: spindle clockwise or counterclockwise. */
  ghost predicate ListsSpindle(r: StatusReport) {
    r.a.Some? && exists i :: 0 <= i < |r.a.value| && (r.a.value[i] == 'S' || r.a.value[i] == 'C')
  }

  /** The laser is on: by the second FS figure when the report has FS, else by the accessories when
      it has overrides. Without either nothing is said. */
  ghost predicate LaserLit(r: StatusReport) {
    || (exists feed, power :: r.fs == Some((feed, power)) && power > 0)
    || (r.fs.None? && r.ov.Some? && ListsSpindle(r))
  }

  ghost predicate LaserDark(r: StatusReport) {
    || (exists feed, power :: r.fs == Some((feed, power)) && power <= 0)
    || (r.fs.None? && r.ov.Some? && !ListsSpindle(r))
  }

  /** A hold that has come to rest, by the state's name. */
  ghost predicate StandsHeld(r: StatusReport) {
    || r.state == "Hold" || r.state == "Hold:0"
    || r.state == "Door" || r.state == "Door:0" || r.state == "Door:1"
  }

  ghost predicate SaysHold(r: StatusReport) {
    |r.state| >= 4 && (r.state[..4] == "Hold" || r.state[..4] == "Door")
  }

  /** Some other state, or the machine restoring after a door. */
  ghost predicate SaysResumed(r: StatusReport) {
    !SaysHold(r) || r.state == "Door:3"
  }

  // ----- What a history shows --------------------------------------------------------------

  /** The last position any report gave. */
  ghost function LastPosition(h: History): Option<Position> {
    match h
    case Created(_) => None
    case Then(b, e) =>
      if e.Heard? && e.msg.Status? && Place(e.msg.report).Some?
      then Place(e.msg.report) else LastPosition(b)
  }

  /** Report r, heard after h, gives a position other than the last one. */
  ghost predicate MovedSince(h: History, r: StatusReport) {
    Place(r).Some? && Place(r) != LastPosition(h)
  }

  ghost function LastReportTime(h: History): real {
    match h
    case Created(t) => t
    case Then(b, e) => if e.Heard? && e.msg.Status? then e.now else LastReportTime(b)
  }

  ghost predicate Paused(h: History) {
    h.Then? && if h.last.Commanded? then h.last.op == Pause else Paused(h.before)
  }

  ghost predicate CancelAsked(h: History) {
    h.Then? && ((h.last.Commanded? && h.last.op == Cancel) || CancelAsked(h.before))
  }

  ghost predicate InHold(h: History) {
    h.Then? && (h.last.HoldBegan? || (!h.last.HoldEnded? && InHold(h.before)))
  }

  ghost function HoldStart(h: History): real {
    match h
    case Created(_) => 0.0
    case Then(b, e) => if e.HoldBegan? then e.now else HoldStart(b)
  }

  /** Held, stationary, and its laser reported off. */
  ghost predicate SafeReport(h: History, r: StatusReport) {
    StandsHeld(r) && !MovedSince(h, r) && LaserDark(r)
  }

  /** Held, stationary, and its laser reported on. */
  ghost predicate LaserOnReport(h: History, r: StatusReport) {
    StandsHeld(r) && !MovedSince(h, r) && LaserLit(r)
  }

  /** Some report since the hold began was safe, and no held report since then moved. The
      report that began the hold counts. */
  ghost predicate Proven(h: History) {
    match h
    case Created(_) => false
    case Then(b, HoldBegan(_)) =>
      b.Then? && b.last.Heard? && b.last.msg.Status? && SafeReport(b.before, b.last.msg.report)
    case Then(b, HoldEnded(_)) => false
    case Then(b, Heard(Status(r), _)) =>
      InHold(b) && if Proven(b) then !(StandsHeld(r) && MovedSince(b, r)) else SafeReport(b, r)
    case Then(b, _) => Proven(b)
  }

  /** The newest report since the hold began shows laser on in a stationary hold. */
  ghost predicate LastLaserOn(h: History) {
    match h
    case Created(_) => false
    case Then(b, HoldBegan(_)) =>
      b.Then? && b.last.Heard? && b.last.msg.Status? && LaserOnReport(b.before, b.last.msg.report)
    case Then(b, HoldEnded(_)) => false
    case Then(b, Heard(Status(r), _)) => InHold(b) && LaserOnReport(b, r)
    case Then(b, _) => LastLaserOn(b)
  }

  /** Two reports in a row, since the hold began, showed laser on in a stationary hold. */
  ghost predicate LaserOnTwice(h: History) {
    match h
    case Created(_) => false
    case Then(b, HoldBegan(_)) => false
    case Then(b, Heard(Status(r), _)) =>
      LaserOnTwice(b) || (InHold(b) && LaserOnReport(b, r) && LastLaserOn(b))
    case Then(b, _) => LaserOnTwice(b)
  }

  /** Parsed Idle reports since the last ok or report of another state. */
  ghost function IdleRun(h: History): nat {
    match h
    case Created(_) => 0
    case Then(b, Heard(Ok, _)) => 0
    case Then(b, Heard(Status(r), _)) => if r.state == "Idle" then IdleRun(b) + 1 else 0
    case Then(b, _) => IdleRun(b)
  }

  /** A machine hold has ended and no ok has come since. */
  ghost predicate HoldEndedSinceOk(h: History) {
    match h
    case Created(_) => false
    case Then(b, Heard(Ok, _)) => false
    case Then(b, HoldEnded(_)) => true
    case Then(b, _) => HoldEndedSinceOk(b)
  }

  ghost function Max(a: int, b: int): int {
    if a > b then a else b
  }

  /** The largest RX-free figure any report gave. */
  ghost function Capacity(h: History): int {
    match h
    case Created(_) => 0
    case Then(b, Heard(Status(r), _)) =>
      if r.bf.Some? then Max(Capacity(b), r.bf.value.1) else Capacity(b)
    case Then(b, _) => Capacity(b)
  }

  /** Report r, heard after h, shows an RX buffer with at most the margin occupied. */
  ghost predicate Drained(h: History, r: StatusReport) {
    r.bf.Some? && Max(Capacity(h), r.bf.value.1) != 0
    && Max(Capacity(h), r.bf.value.1) - r.bf.value.1 <= 8
  }

  /** Drained reports since the last ok, with no undrained figure between. */
  ghost function DrainedRun(h: History): nat {
    match h
    case Created(_) => 0
    case Then(b, Heard(Ok, _)) => 0
    case Then(b, Heard(Status(r), _)) =>
      if r.bf.None? then DrainedRun(b) else if Drained(b, r) then DrainedRun(b) + 1 else 0
    case Then(b, _) => DrainedRun(b)
  }

  /** Idle reports in the drain that goes on: since the last line was started, the last ok and the
      last report of another state. */
  ghost function IdleInDrain(h: History): nat {
    match h
    case Created(_) => 0
    case Then(b, LineStarted(_)) => 0
    case Then(b, Heard(Ok, _)) => 0
    case Then(b, Heard(Status(r), _)) => if r.state == "Idle" then IdleInDrain(b) + 1 else 0
    case Then(b, _) => IdleInDrain(b)
  }

  /** Drained reports in a row while lines were in flight, since the last ok or phantom resync. */
  ghost function DrainedInFlight(h: History): nat {
    match h
    case Created(_) => 0
    case Then(b, PhantomResync) => 0
    case Then(b, Heard(Ok, _)) => 0
    case Then(b, Heard(Status(r), _)) =>
      if r.bf.None? then DrainedInFlight(b)
      else if Drained(b, r) && InFlight(b) > 0 then DrainedInFlight(b) + 1 else 0
    case Then(b, _) => DrainedInFlight(b)
  }

  /** When the job last made progress: it began, an ok came, the head moved, the operator
      resumed, or a machine hold ended. */
  ghost function LastProgress(h: History): real {
    match h
    case Created(t) => t
    case Then(b, Began(t)) => t
    case Then(b, HoldEnded(t)) => t
    case Then(b, Heard(Ok, t)) => t
    case Then(b, Heard(Status(r), t)) => if MovedSince(b, r) then t else LastProgress(b)
    case Then(b, Commanded(op, t)) => if op == Resume then t else LastProgress(b)
    case Then(b, _) => LastProgress(b)
  }

  ghost function LastPoll(h: History): real {
    match h
    case Created(_) => 0.0
    case Then(b, Polled(t)) => t
    case Then(b, _) => LastPoll(b)
  }

  /** Lines started so far. */
  ghost function LinesStarted(h: History): nat {
    match h
    case Created(_) => 0
    case Then(b, LineStarted(_)) => LinesStarted(b) + 1
    case Then(b, _) => LinesStarted(b)
  }

  /** Lines started and neither acknowledged nor written off by a resync. */
  ghost function InFlight(h: History): nat {
    match h
    case Created(_) => 0
    case Then(b, LineStarted(_)) => InFlight(b) + 1
    case Then(b, Heard(Ok, _)) => if InFlight(b) == 0 then 0 else InFlight(b) - 1
    case Then(b, PhantomResync) => 0
    case Then(b, IdleResync) => 0
    case Then(b, _) => InFlight(b)
  }

  ghost function Resets(h: History): nat {
    match h
    case Created(_) => 0
    case Then(b, ResetTried(_, _)) => Resets(b) + 1
    case Then(b, _) => Resets(b)
  }

  ghost function Reports(h: History): nat {
    match h
    case Created(_) => 0
    case Then(b, Reported(_)) => Reports(b) + 1
    case Then(b, _) => Reports(b)
  }

  /** The result the fail-safe was last tried for. */
  ghost function ResetReason(h: History): Option<StreamerResult> {
    match h
    case Created(_) => None
    case Then(b, ResetTried(r, _)) => Some(r)
    case Then(b, _) => ResetReason(b)
  }

  /** The message heard in the newest entry. */
  ghost function NewestMessage(h: History): Option<Message> {
    if h.Then? && h.last.Heard? then Some(h.last.msg) else None
  }

  ghost predicate NewestIsReport(h: History) {
    NewestMessage(h).Some? && NewestMessage(h).value.Status?
  }

  /** The newest entry is a safe report, a laser-on report, or a held report that moved after
      the hold was proven. */
  ghost predicate NewestSafe(h: History) {
    NewestIsReport(h) && SafeReport(h.before, h.last.msg.report)
  }

  ghost predicate NewestLaserOn(h: History) {
    NewestIsReport(h) && LaserOnReport(h.before, h.last.msg.report)
  }

  ghost predicate NewestMovedHeld(h: History) {
    NewestIsReport(h) && Proven(h.before) && StandsHeld(h.last.msg.report)
    && MovedSince(h.before, h.last.msg.report)
  }

  /** Until when the operator's resume excuses a Hold report. */
  ghost function GraceUntil(h: History): real {
    match h
    case Created(_) => 0.0
    case Then(b, Commanded(op, t)) => if op == Resume then t + 1.5 else GraceUntil(b)
    case Then(b, _) => GraceUntil(b)
  }

  /** The hold that is on was begun by a status report, not by a vendor fault. */
  ghost predicate BegunByReport(h: History) {
    match h
    case Created(_) => false
    case Then(b, HoldBegan(_)) => NewestIsReport(b)
    case Then(b, HoldEnded(_)) => false
    case Then(b, _) => BegunByReport(b)
  }

  /** The report just heard; it is still the newest right after the hold it began. */
  ghost function NewestReport(h: History): Option<StatusReport> {
    if NewestIsReport(h) then Some(h.last.msg.report)
    else if h.Then? && h.last.HoldBegan? && NewestIsReport(h.before) then Some(h.before.last.msg.report)
    else None
  }

  /** When the newest message was heard. */
  ghost function NewestTime(h: History): real {
    if h.Then? && h.last.Heard? then h.last.now
    else if h.Then? && h.last.HoldBegan? then h.last.now
    else 0.0
  }

  /** The moment a status query may be due: a turn passed its checks, a line came up, or the poll
      timer fired. */
  ghost function PollAsked(h: History): Option<real> {
    if h.Then? && (h.last.Waited? || h.last.Ready? || h.last.Ticked?) then Some(h.last.now) else None
  }

  ghost function NewestBreak(h: History): Option<Outcome> {
    if h.Then? && h.last.Broke? then Some(h.last.outcome) else None
  }

  /** How far a turn of a drain loop has come: its checks, its read. */
  datatype Stage = Unchecked | Checked | InRead

  ghost function StageOf(h: History): Stage {
    match h
    case Created(_) => Unchecked
    case Then(b, Waited(_)) => Checked
    case Then(b, ReadBegan(_)) => InRead
    case Then(b, Polled(_)) => StageOf(b)
    case Then(b, Ticked(_)) => StageOf(b)
    case Then(b, Commanded(_, _)) => StageOf(b)
    case Then(b, _) => Unchecked
  }

  /** The next line has come up since the last one was started. */
  ghost predicate LineUp(h: History) {
    h.Then? && (h.last.Ready? || (!h.last.LineStarted? && LineUp(h.before)))
  }

  /** All of the above for one history, by subject. */
  datatype HoldFacts = HoldFacts(
    position: Option<Position>,
    reportTime: real,
    on: bool,
    start: real,
    proven: bool,
    laserOn: bool,
    laserOnTwice: bool,
    endedSinceOk: bool,
    byReport: bool)

  datatype PaceFacts = PaceFacts(paused: bool, cancelAsked: bool, progress: real, graceUntil: real, stage: Stage,
                                 lineUp: bool)

  datatype StreakFacts = StreakFacts(idleRun: nat, idleInDrain: nat, capacity: int, drainedRun: nat,
                                     drainedInFlight: nat)

  datatype OutputFacts = OutputFacts(
    started: nat,
    inFlight: nat,
    pollTime: real,
    resets: nat,
    reports: nat,
    resetReason: Option<StreamerResult>)

  datatype NewestFacts = NewestFacts(
    message: Option<Message>,
    at: real,
    report: Option<StatusReport>,
    asked: Option<real>,
    broke: Option<Outcome>,
    safe: bool,
    laserOn: bool,
    movedHeld: bool,
    idleCompletion: bool,
    interrupted: bool)

  datatype Facts = Facts(hold: HoldFacts, pace: PaceFacts, streak: StreakFacts, out: OutputFacts, newest: NewestFacts)

  ghost function HoldOf(h: History): HoldFacts {
    HoldFacts(LastPosition(h), LastReportTime(h), InHold(h), HoldStart(h), Proven(h), LastLaserOn(h),
              LaserOnTwice(h), HoldEndedSinceOk(h), BegunByReport(h))
  }

  ghost function PaceOf(h: History): PaceFacts {
    PaceFacts(Paused(h), CancelAsked(h), LastProgress(h), GraceUntil(h), StageOf(h), LineUp(h))
  }

  ghost function StreakOf(h: History): StreakFacts {
    StreakFacts(IdleRun(h), IdleInDrain(h), Capacity(h), DrainedRun(h), DrainedInFlight(h))
  }

  ghost function OutputOf(h: History): OutputFacts {
    OutputFacts(LinesStarted(h), InFlight(h), LastPoll(h), Resets(h), Reports(h), ResetReason(h))
  }

  ghost function NewestOf(h: History): NewestFacts {
    NewestFacts(NewestMessage(h), NewestTime(h), NewestReport(h), PollAsked(h), NewestBreak(h),
                NewestSafe(h), NewestLaserOn(h), NewestMovedHeld(h),
                h.Then? && h.last.IdleCompletion?, h.Then? && h.last.Interrupted?)
  }

  ghost function FactsOf(h: History): Facts {
    Facts(HoldOf(h), PaceOf(h), StreakOf(h), OutputOf(h), NewestOf(h))
  }

  // ----- The laws --------------------------------------------------------------------------
  // In each law, f is what the history before entry e shows.

  /** A turn of a drain loop during a machine hold: past the confirmation time only a proven,
      dark hold with fresh reports is waited out. */
  ghost predicate HoldLaw(c: Config, f: Facts, e: Entry) {
    e.Waited? && f.hold.on && e.now - f.hold.start >= c.holdConfirm ==>
      f.hold.proven && !f.hold.laserOnTwice && e.now - f.hold.reportTime < c.stallTimeout
  }

  /** A turn of a drain loop outside operator pause and machine hold: progress is recent. */
  ghost predicate ProgressLaw(c: Config, job: Job, f: Facts, e: Entry) {
    e.Waited? ==>
      !f.pace.cancelAsked && (!f.hold.on && !f.pace.paused ==> e.now - f.pace.progress < c.stallTimeout + Dwell(job))
  }

  /** Resyncs and Idle completion need sustained evidence. */
  ghost predicate EvidenceLaw(f: Facts, e: Entry) {
    && (e.IdleResync? || e.IdleCompletion? ==> f.streak.idleRun >= 3 && !f.hold.endedSinceOk)
    && (e.PhantomResync? ==> f.streak.drainedRun >= 3)
  }

  /** The evidence is acted on: a drain loop does not go on waiting after three Idle reports,
      nor, while lines remain, after three reports of a drained buffer. */
  ghost predicate ResyncLaw(job: Job, f: Facts, e: Entry) {
    e.Waited? ==>
      f.streak.idleInDrain < 3
      && (f.out.started < |job.lines| ==> f.streak.drainedInFlight < 3)
  }

  /** The machine has paused itself: a vendor fault, or a Hold or Door report the operator did not
      ask for. */
  ghost predicate CallsForHold(f: Facts) {
    !f.hold.on && f.newest.message.Some? &&
    match f.newest.message.value
    case VendorFault(_) => true
    case Status(r) =>
      !("Alarm" <= r.state) && SaysHold(r) && !f.pace.paused && f.newest.at >= f.pace.graceUntil
    case _ => false
  }

  /** The machine has left a hold that was proven safe, or that a report began. */
  ghost predicate EndsHold(f: Facts) {
    && f.hold.on && f.newest.report.Some?
    && !("Alarm" <= f.newest.report.value.state) && SaysResumed(f.newest.report.value)
    && (f.hold.proven || f.hold.byReport)
  }

  /** A machine hold begins, and ends, at once and exactly when what was heard says so. */
  ghost predicate MarkLaw(f: Facts, e: Entry) {
    && (e.HoldBegan? <==> CallsForHold(f))
    && (e.HoldEnded? <==> EndsHold(f))
    && (e.HoldBegan? || e.HoldEnded? ==> e.now == f.newest.at)
  }

  /** A turn of a drain loop takes a message, or begins a read, only after its checks; a line is
      started only after it came up. */
  ghost predicate TurnLaw(f: Facts, e: Entry) {
    && (e.ReadBegan? ==> f.pace.stage == Checked)
    && (e.Heard? ==> f.pace.stage != Unchecked)
    && (e.LineStarted? ==> f.pace.lineUp)
  }

  /** Status queries come faster while a hold is unproven. */
  ghost function PollEvery(c: Config, f: HoldFacts): real {
    if f.on && !f.proven && 0.1 < c.pollInterval then 0.1 else c.pollInterval
  }

  ghost predicate PollOwed(c: Config, f: Facts) {
    f.newest.asked.Some? && f.newest.asked.value - f.out.pollTime >= PollEvery(c, f.hold)
  }

  /** A status query is written at once and exactly when one is due: before a turn's read, before a
      line, and whenever the poll timer fires beside a read. */
  ghost predicate PollLaw(c: Config, f: Facts, e: Entry) {
    && (e.Polled? <==> PollOwed(c, f))
    && (e.Polled? ==> e.now == f.newest.asked.value)
  }

  /** An exception ends the run at once: a crash as an internal error, a lost link or a cancelled
      task as cancelled; and nothing but these, cancel() and an interrupted fail-safe gives a
      cancelled result. */
  ghost predicate BreakLaw(f: Facts, e: Entry) {
    && (f.newest.broke.Some? ==>
          if f.newest.broke.value.Crash? then e.ResetTried? && e.reason.message == Some(InternalError)
          else e.Reported? && e.result.cancelled)
    && (e.Reported? && e.result.cancelled ==> f.pace.cancelAsked || f.newest.broke.Some? || f.newest.interrupted)
  }

  /** Lines go out in file order, each once, and none once the run is stopping. The fail-safe is
      tried once for a fault and for nothing else, before the one report of the result. A
      completed job has sent every line, and all were acknowledged unless sustained Idle said
      the machine is done; a cancelled one says how many lines it has sent, not counting one that an
      exception cut short. */
  ghost predicate OrderLaw(job: Job, f: Facts, e: Entry) {
    && (e.LineStarted? ==> e.index == f.out.started < |job.lines| && f.out.resets == f.out.reports == 0)
    && (e.ResetTried? ==> IsFault(e.reason) && f.out.resets == f.out.reports == 0)
    && (e.Reported? ==> f.out.reports == 0 && (IsFault(e.result) <==> f.out.resetReason == Some(e.result)))
    && (e.Reported? && !IsFault(e.result) ==> f.out.resets == 0 || (f.newest.interrupted && e.result.cancelled))
    && (e.Reported? && e.result.completed ==>
          && f.out.resets == 0
          && e.result.linesSent == e.result.totalLines == |job.lines| == f.out.started
          && (f.out.inFlight == 0 || f.newest.idleCompletion))
    && (e.Reported? && e.result.cancelled && !f.newest.interrupted ==>
          && f.out.started - 1 <= e.result.linesSent <= f.out.started
          && (f.newest.broke.None? ==> e.result.linesSent == f.out.started && e.result.totalLines == |job.lines|))
  }

  /** A message after which the run must stop, with nothing in between: an error, an alarm, a
      reset nobody asked for, motion in a hold that was proven safe, the laser on again in a hold. */
  ghost predicate MustStop(f: Facts) {
    f.newest.message.Some? &&
    match f.newest.message.value
    case ErrorReply(_) => true
    case AlarmReply(_) => true
    case Greeting => !f.pace.cancelAsked
    case Status(r) => "Alarm" <= r.state || f.newest.movedHeld || (f.newest.laserOn && f.hold.laserOnTwice)
    case _ => false
  }

  /** The counts a fault reports, and the line it blames for an error: the one waiting to be
      sent, or the last one. */
  ghost predicate CountsShown(job: Job, f: Facts, r: StreamerResult) {
    && (r.errorLine == if r.errorCode.None? then None
                       else if f.out.started < |job.lines| then Some(f.out.started + 1) else Some(f.out.started))
    && (r.message != Some(InternalError) ==> r.linesSent == f.out.started && r.totalLines == |job.lines|)
  }

  /** An error or alarm code is given exactly when that was the last thing heard, and every other
      fault has a message. */
  ghost predicate CodesShown(f: Facts, r: StreamerResult) {
    && (r.errorCode.Some? <==> f.newest.message.Some? && f.newest.message.value.ErrorReply?)
    && (r.errorCode.Some? ==> f.newest.message == Some(ErrorReply(r.errorCode.value)))
    && (r.alarmCode.Some? ==> f.newest.message == Some(AlarmReply(r.alarmCode)))
    && (f.newest.message.Some? && f.newest.message.value.AlarmReply? ==>
          r.alarmCode == f.newest.message.value.alarm && r.message.None?)
    && (r.message.None? ==>
          f.newest.message.Some? && (f.newest.message.value.ErrorReply? || f.newest.message.value.AlarmReply?))
  }

  /** The reason a fault gives is what the history shows. */
  ghost predicate ReasonShown(c: Config, job: Job, f: Facts, r: StreamerResult, now: real) {
    && CountsShown(job, f, r)
    && CodesShown(f, r)
    && (r.message.Some? ==>
         match r.message.value
         case AlarmState =>
           f.newest.message.Some? && f.newest.message.value.Status? && "Alarm" <= f.newest.message.value.report.state
         case HoldMoving => f.newest.movedHeld
         case HoldLaserOn => f.hold.laserOnTwice
         case HoldUnconfirmed => f.hold.on && !f.hold.proven && now - f.hold.start >= c.holdConfirm
         case SupervisionLost => f.hold.on && now - f.hold.reportTime >= c.stallTimeout
         case Stalled => !f.hold.on && !f.pace.paused && now - f.pace.progress >= c.stallTimeout + Dwell(job)
         case DroppedAfterHold => f.streak.idleRun >= 3 && f.hold.endedSinceOk
         case UnexpectedReset => f.newest.message == Some(Greeting) && !f.pace.cancelAsked
         case InternalError => f.newest.broke == Some(Crash))
  }

  /** The run stops at once after a message that ends it, and a fault is one the history shows. */
  ghost predicate StopLaw(c: Config, job: Job, f: Facts, e: Entry) {
    && (MustStop(f) ==> e.ResetTried?)
    && (e.ResetTried? ==> ReasonShown(c, job, f, e.reason, e.now))
  }

  ghost predicate EntryLaw(c: Config, job: Job, f: Facts, e: Entry) {
    && HoldLaw(c, f, e)
    && ProgressLaw(c, job, f, e)
    && EvidenceLaw(f, e)
    && ResyncLaw(job, f, e)
    && MarkLaw(f, e)
    && TurnLaw(f, e)
    && PollLaw(c, f, e)
    && BreakLaw(f, e)
    && OrderLaw(job, f, e)
    && StopLaw(c, job, f, e)
  }

  /** Every entry is justified by the history before it. */
  ghost predicate Lawful(c: Config, job: Job, h: History) {
    h.Then? ==> Lawful(c, job, h.before) && EntryLaw(c, job, FactsOf(h.before), h.last)
  }

  // ----- One entry more --------------------------------------------------------------------

  const NOTHING_NEW := NewestFacts(None, 0.0, None, None, None, false, false, false, false, false)

  /** What is known after one more entry. */
  ghost function Learn(f: Facts, e: Entry): Facts {
    var g := f.(newest := NOTHING_NEW, pace := f.pace.(stage := Unchecked));
    match e
    case Began(t) => g.(pace := g.pace.(progress := t))
    case HoldBegan(t) => g.(hold := f.hold.(on := true, start := t, proven := f.newest.safe,
                                            laserOn := f.newest.laserOn, laserOnTwice := false,
                                            byReport := f.newest.message.Some? && f.newest.message.value.Status?),
                            newest := NOTHING_NEW.(at := t, report := HeardReport(f.newest)))
    case HoldEnded(t) => g.(hold := f.hold.(on := false, proven := false, laserOn := false, endedSinceOk := true,
                                            byReport := false),
                            pace := g.pace.(progress := t))
    case Commanded(op, t) => f.(newest := NOTHING_NEW,
                                pace := f.pace.(paused := op == Pause,
                                                cancelAsked := op == Cancel || f.pace.cancelAsked,
                                                progress := if op == Resume then t else f.pace.progress,
                                                graceUntil := if op == Resume then t + 1.5
                                                              else f.pace.graceUntil))
    case Ready(t) => g.(pace := g.pace.(lineUp := true), newest := NOTHING_NEW.(asked := Some(t)))
    case Waited(t) => g.(pace := g.pace.(stage := Checked), newest := NOTHING_NEW.(asked := Some(t)))
    case Polled(t) => f.(newest := NOTHING_NEW, out := f.out.(pollTime := t))
    case ReadBegan(_) => g.(pace := g.pace.(stage := InRead))
    case Ticked(t) => f.(newest := NOTHING_NEW.(asked := Some(t)))
    case Broke(o, _) => g.(newest := NOTHING_NEW.(broke := Some(o)))
    case LineStarted(_) => g.(out := f.out.(started := f.out.started + 1, inFlight := f.out.inFlight + 1),
                              streak := f.streak.(idleInDrain := 0),
                              pace := g.pace.(lineUp := false))
    case PhantomResync => g.(out := f.out.(inFlight := 0), streak := f.streak.(drainedInFlight := 0))
    case IdleResync => g.(out := f.out.(inFlight := 0))
    case IdleCompletion => g.(newest := NOTHING_NEW.(idleCompletion := true))
    case Interrupted => g.(newest := NOTHING_NEW.(interrupted := true))
    case ResetTried(r, _) => g.(out := f.out.(resets := f.out.resets + 1, resetReason := Some(r)))
    case Reported(_) => g.(out := f.out.(reports := f.out.reports + 1))
    case Heard(m, t) => LearnMessage(f, m, t)
  }

  ghost function HeardReport(f: NewestFacts): Option<StatusReport> {
    if f.message.Some? && f.message.value.Status? then Some(f.message.value.report) else None
  }

  ghost function LearnMessage(f: Facts, m: Message, t: real): Facts {
    var g := f.(newest := NOTHING_NEW.(message := Some(m), at := t), pace := f.pace.(stage := Unchecked));
    match m
    case Ok => g.(hold := f.hold.(endedSinceOk := false),
                  pace := g.pace.(progress := t),
                  streak := f.streak.(idleRun := 0, idleInDrain := 0, drainedRun := 0, drainedInFlight := 0),
                  out := f.out.(inFlight := if f.out.inFlight == 0 then 0 else f.out.inFlight - 1))
    case Status(r) =>
      var moved := ShowsMotion(f.hold, r);
      g.(hold := HoldAfterReport(f.hold, r, t),
         pace := g.pace.(progress := if moved then t else f.pace.progress),
         streak := StreakAfterReport(f.streak, f.out.inFlight, r),
         newest := g.newest.(report := Some(r), safe := ShowsSafe(f.hold, r), laserOn := ShowsLaserOn(f.hold, r),
                             movedHeld := f.hold.proven && StandsHeld(r) && moved))
    case _ => g
  }

  /** A status report gives a position other than the last one. */
  ghost predicate ShowsMotion(f: HoldFacts, r: StatusReport) {
    Place(r).Some? && Place(r) != f.position
  }

  ghost predicate ShowsSafe(f: HoldFacts, r: StatusReport) {
    StandsHeld(r) && !ShowsMotion(f, r) && LaserDark(r)
  }

  ghost predicate ShowsLaserOn(f: HoldFacts, r: StatusReport) {
    StandsHeld(r) && !ShowsMotion(f, r) && LaserLit(r)
  }

  ghost function HoldAfterReport(f: HoldFacts, r: StatusReport, t: real): HoldFacts {
    f.(position := if Place(r).Some? then Place(r) else f.position,
       reportTime := t,
       proven := f.on && if f.proven then !(StandsHeld(r) && ShowsMotion(f, r)) else ShowsSafe(f, r),
       laserOn := f.on && ShowsLaserOn(f, r),
       laserOnTwice := f.laserOnTwice || (f.on && ShowsLaserOn(f, r) && f.laserOn))
  }

  ghost function StreakAfterReport(f: StreakFacts, inFlight: nat, r: StatusReport): StreakFacts {
    var g := if r.state == "Idle" then f.(idleRun := f.idleRun + 1, idleInDrain := f.idleInDrain + 1)
             else f.(idleRun := 0, idleInDrain := 0);
    if r.bf.None? then g else
    var capacity := Max(f.capacity, r.bf.value.1);
    var drained := capacity != 0 && capacity - r.bf.value.1 <= 8;
    g.(capacity := capacity,
       drainedRun := if drained then f.drainedRun + 1 else 0,
       drainedInFlight := if drained && inFlight > 0 then f.drainedInFlight + 1 else 0)
  }

  lemma MotionShows(h: History, r: StatusReport)
    ensures ShowsMotion(HoldOf(h), r) == MovedSince(h, r)
    ensures ShowsSafe(HoldOf(h), r) == SafeReport(h, r) && ShowsLaserOn(HoldOf(h), r) == LaserOnReport(h, r)
  {
  }

  lemma HoldLearns(h: History, e: Entry)
    ensures HoldOf(Then(h, e)) == Learn(FactsOf(h), e).hold
  {
    hide PaceOf, StreakOf, OutputOf;
    if e.Heard? && e.msg.Status? { MotionShows(h, e.msg.report); }
  }

  lemma PaceLearns(h: History, e: Entry)
    ensures PaceOf(Then(h, e)) == Learn(FactsOf(h), e).pace
  {
    hide StreakOf, OutputOf, NewestOf;
    if e.Heard? && e.msg.Status? { MotionShows(h, e.msg.report); }
  }

  lemma StreakLearns(h: History, e: Entry)
    ensures StreakOf(Then(h, e)) == Learn(FactsOf(h), e).streak
  {
    hide HoldOf, PaceOf, NewestOf;
  }

  lemma OutputLearns(h: History, e: Entry)
    ensures OutputOf(Then(h, e)) == Learn(FactsOf(h), e).out
  {
    hide HoldOf, PaceOf, StreakOf, NewestOf;
  }

  lemma NewestLearns(h: History, e: Entry)
    ensures NewestOf(Then(h, e)) == Learn(FactsOf(h), e).newest
  {
    hide PaceOf, StreakOf, OutputOf;
    if e.Heard? && e.msg.Status? { MotionShows(h, e.msg.report); }
  }

  lemma FactsLearn(h: History, e: Entry)
    ensures FactsOf(Then(h, e)) == Learn(FactsOf(h), e)
  {
    hide HoldOf, PaceOf, StreakOf, OutputOf, NewestOf, Learn;
    HoldLearns(h, e);
    PaceLearns(h, e);
    StreakLearns(h, e);
    OutputLearns(h, e);
    NewestLearns(h, e);
  }
}
