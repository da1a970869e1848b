/** The serial read path changing hands: the relay (_serial_to_tcp), the finalizer that hands the
    port to the streamer (_finalize_job or _begin_execution), and the streamer, as tasks that
    interleave at their awaits over three events and one read lock. An asyncio event's waiter that
    was woken runs later, when the event may have been cleared again. Handshake timeouts never fire
    here. */
module Handover {

  /** A read_line() call: waiting for the read lock, holding it, or returned. */
  datatype ReadPhase = Queued | Holding | Returned

  /** Where the relay is suspended. In Reading it waits for its read, for stop_relay or for
      serial_yield; `yieldSeen` says the last of these has come. */
  datatype Relay =
    | Absent
    | Starting
    | AwaitReadable(woken: bool)
    | Reading(read: ReadPhase, yieldSeen: bool)
    | Draining(read: ReadPhase)
    | Delivering

  datatype Finalizer = NoFinalizer | AwaitIdle(woken: bool)

  datatype Streamer = NotStreaming | BetweenReads | WantsRead | HoldsRead

  /** Whose read: the relay's, one that its relay has left behind, or the streamer's. */
  datatype Reader = ByRelay | ByOrphan | ByStreamer

  /** `stopping`: stop_relay is set. Orphans are reads whose relay has ended. */
  datatype Tasks = Tasks(
    relay: Relay,
    stopping: bool,
    orphansQueued: nat,
    orphansHolding: nat,
    finalizer: Finalizer,
    streamer: Streamer,
    locked: bool,
    readable: bool,
    idle: bool,
    yielding: bool)

  datatype TaskEvent =
    | RelayStarts
    | RelayRuns(linkLost: bool)
    | StopAsked
    | RelayCancelled
    | JobStarts
    | FinalizerRuns(serialKnown: bool)
    | FinalizerCancelled
    | StreamerReads
    | StreamerEnds
    | LockTaken(who: Reader)
    | ReadEnds(who: Reader)

  const QUIET := Tasks(Absent, false, 0, 0, NoFinalizer, NotStreaming, false, true, true, false)

  predicate InRead(r: Relay) {
    r.Reading? || r.Draining?
  }

  predicate Streams(t: Tasks) {
    !t.streamer.NotStreaming?
  }

  /** serial_read_idle.set() */
  function SetIdle(t: Tasks): Tasks {
    t.(idle := true, finalizer := if t.finalizer.AwaitIdle? then AwaitIdle(true) else t.finalizer)
  }

  /** serial_readable.set() */
  function SetReadable(t: Tasks): Tasks {
    t.(readable := true, relay := if t.relay.AwaitReadable? then AwaitReadable(true) else t.relay)
  }

  /** From the head of the relay's loop to its next await. */
  function LoopHead(t: Tasks): Tasks {
    if t.stopping then t.(relay := Absent)
    else if !t.readable then SetIdle(t).(relay := AwaitReadable(false))
    else t.(idle := false, relay := Reading(Queued, t.yielding))
  }

  /** The relay ends where it is. A read that holds the lock goes on without it, and so does one
      that was being drained, which is shielded; a read still in the queue is otherwise cancelled. */
  function Leave(t: Tasks): Tasks {
    var u := t.(relay := Absent);
    if !InRead(t.relay) then u
    else if t.relay.read.Holding? then u.(orphansHolding := t.orphansHolding + 1)
    else if t.relay.read.Queued? && t.relay.Draining? then u.(orphansQueued := t.orphansQueued + 1)
    else u
  }

  predicate Runnable(t: Tasks) {
    match t.relay
    case Absent => false
    case Starting => true
    case AwaitReadable(woken) => woken
    case Reading(read, yieldSeen) => read.Returned? || yieldSeen || t.stopping
    case Draining(read) => read.Returned?
    case Delivering => true
  }

  function RunRelay(t: Tasks, linkLost: bool): Tasks
    requires Runnable(t)
  {
    match t.relay
    case Starting => LoopHead(t)
    case AwaitReadable(_) => if t.stopping then t.(relay := Absent) else LoopHead(t)
    case Reading(read, _) =>
      if t.yielding then t.(relay := Draining(read))
      else if t.stopping then Leave(t)
      else if linkLost then SetIdle(t).(stopping := true, relay := Absent)
      else SetIdle(t).(relay := Delivering)
    case Draining(_) => LoopHead(SetIdle(t))
    case Delivering => LoopHead(t)
  }

  /** A read takes the lock if it waits for it and the lock is free. */
  function TakeLock(t: Tasks, who: Reader): Tasks {
    if t.locked then t else
    match who
    case ByRelay =>
      if InRead(t.relay) && t.relay.read.Queued? then t.(relay := t.relay.(read := Holding), locked := true) else t
    case ByOrphan =>
      if t.orphansQueued > 0
      then t.(orphansQueued := t.orphansQueued - 1, orphansHolding := t.orphansHolding + 1, locked := true) else t
    case ByStreamer => if t.streamer.WantsRead? then t.(streamer := HoldsRead, locked := true) else t
  }

  /** A read returns and releases the lock. */
  function EndRead(t: Tasks, who: Reader): Tasks {
    match who
    case ByRelay =>
      if InRead(t.relay) && t.relay.read.Holding? then t.(relay := t.relay.(read := Returned), locked := false) else t
    case ByOrphan =>
      if t.orphansHolding > 0 then t.(orphansHolding := t.orphansHolding - 1, locked := false) else t
    case ByStreamer => if t.streamer.HoldsRead? then t.(streamer := BetweenReads, locked := false) else t
  }

  /** One step of one task. A step that cannot be taken changes nothing. */
  function TaskStep(t: Tasks, e: TaskEvent): Tasks {
    match e
    case RelayStarts => if t.relay.Absent? then t.(relay := Starting, stopping := false) else t
    case RelayRuns(linkLost) => if Runnable(t) then RunRelay(t, linkLost) else t
    case StopAsked => if t.relay.Absent? then t else t.(stopping := true)
    case RelayCancelled => Leave(t)
    case JobStarts =>
      if !t.readable then t
      else t.(readable := false, yielding := true, finalizer := AwaitIdle(t.idle),
              relay := if t.relay.Reading? then t.relay.(yieldSeen := true) else t.relay)
    case FinalizerRuns(serialKnown) =>
      if t.finalizer != AwaitIdle(true) then t
      else
        var t1 := t.(yielding := false, finalizer := NoFinalizer);
        if serialKnown then t1.(streamer := BetweenReads) else SetReadable(t1)
    case FinalizerCancelled => t.(finalizer := NoFinalizer)
    case StreamerReads => if t.streamer.BetweenReads? then t.(streamer := WantsRead) else t
    case StreamerEnds =>
      if t.streamer.BetweenReads? then SetReadable(t.(streamer := NotStreaming, yielding := false)) else t
    case LockTaken(who) => TakeLock(t, who)
    case ReadEnds(who) => EndRead(t, who)
  }

  function TaskRun(t: Tasks, es: seq<TaskEvent>): Tasks
    decreases |es|
  {
    if es == [] then t else TaskRun(TaskStep(t, es[0]), es[1..])
  }

  // ----- Safety ----------------------------------------------------------------------------

  /** Reads that hold the lock. */
  function Holders(t: Tasks): nat {
    (if InRead(t.relay) && t.relay.read.Holding? then 1 else 0)
    + t.orphansHolding
    + (if t.streamer.HoldsRead? then 1 else 0)
  }

  predicate Orderly(t: Tasks) {
    && (t.readable ==> !Streams(t) && t.finalizer.NoFinalizer?)
    && (t.finalizer.AwaitIdle? ==> !Streams(t) && t.yielding && t.finalizer.woken == t.idle)
    && (InRead(t.relay) ==> !t.idle && !Streams(t))
    && (t.relay.AwaitReadable? || t.relay.Delivering? ==> t.idle)
    && (t.relay.AwaitReadable? && t.readable ==> t.relay.woken)
    && (t.relay.Reading? && t.relay.yieldSeen ==> t.yielding)
    && (t.relay.Reading? && t.finalizer.AwaitIdle? ==> t.relay.yieldSeen)
    && (t.relay.Reading? && !t.readable ==> t.relay.yieldSeen)
    && (t.relay.Draining? ==> t.yielding)
    && Holders(t) == if t.locked then 1 else 0
  }

  predicate AboutRelay(e: TaskEvent) {
    e.RelayStarts? || e.RelayRuns? || e.StopAsked? || e.RelayCancelled?
  }

  lemma RelayKeepsOrderly(t: Tasks, e: TaskEvent)
    requires Orderly(t) && AboutRelay(e)
    ensures Orderly(TaskStep(t, e))
  {
    hide TakeLock, EndRead;
  }

  lemma ReadKeepsOrderly(t: Tasks, e: TaskEvent)
    requires Orderly(t) && (e.LockTaken? || e.ReadEnds?)
    ensures Orderly(TaskStep(t, e))
  {
    hide RunRelay, Leave, SetReadable;
  }

  lemma OwnerKeepsOrderly(t: Tasks, e: TaskEvent)
    requires Orderly(t) && !AboutRelay(e) && !e.LockTaken? && !e.ReadEnds?
    ensures Orderly(TaskStep(t, e))
  {
    hide RunRelay, Leave, TakeLock, EndRead;
  }

  lemma StepKeepsOrderly(t: Tasks, e: TaskEvent)
    requires Orderly(t)
    ensures Orderly(TaskStep(t, e))
  {
    hide TaskStep, Orderly;
    if AboutRelay(e) {
      RelayKeepsOrderly(t, e);
    } else if e.LockTaken? || e.ReadEnds? {
      ReadKeepsOrderly(t, e);
    } else {
      OwnerKeepsOrderly(t, e);
    }
  }

  lemma {:induction false} RunKeepsOrderly(t: Tasks, es: seq<TaskEvent>)
    requires Orderly(t)
    ensures Orderly(TaskRun(t, es))
    decreases |es|
  {
    hide TaskStep, Orderly;
    if es == [] {
    } else {
      StepKeepsOrderly(t, es[0]);
      RunKeepsOrderly(TaskStep(t, es[0]), es[1..]);
    }
  }

  /** In every interleaving the relay is never inside a serial read while the streamer runs. */
  lemma RelayNeverReadsBesideTheStreamer(es: seq<TaskEvent>)
    ensures var t := TaskRun(QUIET, es); Streams(t) ==> !InRead(t.relay)
  {
    RunKeepsOrderly(QUIET, es);
  }

  /** In every interleaving at most one read of relay, orphans and streamer touches the port. */
  lemma OneReaderAtATime(es: seq<TaskEvent>)
    ensures Holders(TaskRun(QUIET, es)) <= 1
  {
    RunKeepsOrderly(QUIET, es);
  }

  /** When the relay goes on to use the line it read, its read has returned: the result is there
      to be taken. */
  lemma DeliversFinishedReads(es: seq<TaskEvent>, linkLost: bool)
    ensures var t := TaskRun(QUIET, es);
            t.relay.Reading? && Runnable(t) && !t.yielding && !t.stopping ==> t.relay.read.Returned?
  {
    RunKeepsOrderly(QUIET, es);
  }

  // ----- Progress --------------------------------------------------------------------------

  /** The relay notices, a left-over read returns, the relay's read runs and returns, and the relay
      runs again. */
  const RELAY_TURN := [RelayRuns(false), ReadEnds(ByOrphan), LockTaken(ByRelay), ReadEnds(ByRelay), RelayRuns(false)]

  lemma FiveSteps(t: Tasks, a: TaskEvent, b: TaskEvent, c: TaskEvent, d: TaskEvent, e: TaskEvent)
    ensures TaskRun(t, [a, b, c, d, e]) == TaskStep(TaskStep(TaskStep(TaskStep(TaskStep(t, a), b), c), d), e)
  {
    hide TaskStep;
    assert [a, b, c, d, e][1..] == [b, c, d, e];
    FourSteps(TaskStep(t, a), b, c, d, e);
  }

  lemma FourSteps(t: Tasks, a: TaskEvent, b: TaskEvent, c: TaskEvent, d: TaskEvent)
    ensures TaskRun(t, [a, b, c, d]) == TaskStep(TaskStep(TaskStep(TaskStep(t, a), b), c), d)
  {
    hide TaskStep;
    assert [a, b, c, d][1..] == [b, c, d] && [b, c, d][1..] == [c, d];
    var t2 := TaskStep(TaskStep(t, a), b);
    assert TaskRun(TaskStep(t, a), [b, c, d]) == TaskRun(t2, [c, d]);
    TwoSteps(t2, c, d);
  }

  lemma TwoSteps(t: Tasks, a: TaskEvent, b: TaskEvent)
    ensures TaskRun(t, [a, b]) == TaskStep(TaskStep(t, a), b)
  {
    hide TaskStep;
    assert [a, b][1..] == [b];
    OneStep(TaskStep(t, a), b);
  }

  lemma OneStep(t: Tasks, e: TaskEvent)
    ensures TaskRun(t, [e]) == TaskStep(t, e)
  {
    hide TaskStep;
    assert [e][1..] == [];
  }

  lemma {:induction false} RunsAppend(t: Tasks, a: seq<TaskEvent>, b: seq<TaskEvent>)
    ensures TaskRun(t, a + b) == TaskRun(TaskRun(t, a), b)
    decreases |a|
  {
    hide TaskStep;
    if a == [] {
      assert a + b == b;
    } else {
      assert (a + b)[1..] == a[1..] + b;
      RunsAppend(TaskStep(t, a[0]), a[1..], b);
    }
  }

  /** The relay has left its reads and waits outside them. */
  predicate Outside(t: Tasks) {
    (t.relay.Absent? || t.relay == AwaitReadable(false)) && t.idle && !t.readable
  }

  lemma OutsideStays(t: Tasks)
    requires Outside(t)
    ensures TaskRun(t, RELAY_TURN[1..]).relay == t.relay && TaskRun(t, RELAY_TURN[1..]).idle
    ensures TaskRun(t, RELAY_TURN[1..]).finalizer == t.finalizer
  {
    FourSteps(t, ReadEnds(ByOrphan), LockTaken(ByRelay), ReadEnds(ByRelay), RelayRuns(false));
    var t1 := TaskStep(t, ReadEnds(ByOrphan));
    assert Outside(t1);
    assert TaskStep(t1, LockTaken(ByRelay)) == t1 && TaskStep(t1, ReadEnds(ByRelay)) == t1;
  }

  /** The relay's own read, and one left over before it, come to their end. */
  lemma DrainEnds(t: Tasks)
    requires Orderly(t) && t.relay.Draining? && !t.readable
    ensures var u := TaskStep(TaskStep(TaskStep(t, ReadEnds(ByOrphan)), LockTaken(ByRelay)), ReadEnds(ByRelay));
            u.relay == Draining(Returned) && u.finalizer == t.finalizer && !u.readable
  {
    hide RunRelay, LoopHead;
    var t1 := TaskStep(t, ReadEnds(ByOrphan));
    assert t1.relay == t.relay && (t.relay.read.Queued? ==> !t1.locked);
  }

  /** A relay asked to yield leaves its read, in one turn, and begins no other. */
  lemma RelayYields(t: Tasks)
    requires Orderly(t) && !t.readable && !Streams(t) && InRead(t.relay)
    ensures var u := TaskRun(t, RELAY_TURN);
            !InRead(u.relay) && u.idle && (t.finalizer.AwaitIdle? ==> u.finalizer == AwaitIdle(true))
  {
    var t1 := TaskStep(t, RelayRuns(false));
    assert TaskRun(t, RELAY_TURN) == TaskRun(t1, RELAY_TURN[1..]);
    StepKeepsOrderly(t, RelayRuns(false));
    if t1.relay.Draining? {
      assert t1.finalizer == t.finalizer && !t1.readable;
      DrainEnds(t1);
      FourSteps(t1, ReadEnds(ByOrphan), LockTaken(ByRelay), ReadEnds(ByRelay), RelayRuns(false));
    } else {
      assert Outside(t1) && (t.finalizer.AwaitIdle? ==> t1.finalizer == AwaitIdle(true));
      OutsideStays(t1);
    }
  }

  /** The finalizer's wait will end: no read is under way, or a relay is there that runs on. */
  predicate WillBeIdle(t: Tasks) {
    t.idle || (!t.relay.Absent? && (t.relay.Starting? ==> !t.stopping))
  }

  lemma RelayWakesFinalizer(t: Tasks)
    requires Orderly(t) && t.finalizer.AwaitIdle? && WillBeIdle(t)
    ensures TaskRun(t, RELAY_TURN).finalizer == AwaitIdle(true)
  {
    if InRead(t.relay) {
      RelayYields(t);
    } else {
      var t1 := TaskStep(t, RelayRuns(false));
      assert TaskRun(t, RELAY_TURN) == TaskRun(t1, RELAY_TURN[1..]);
      assert Outside(t1) && t1.finalizer == AwaitIdle(true);
      OutsideStays(t1);
    }
  }

  /** A handover completes, without a new relay, if and only if serial_read_idle is set or a relay is
      there that runs on: then the relay's turn wakes the finalizer and the streamer starts. */
  lemma HandoverCompletes(es: seq<TaskEvent>)
    requires TaskRun(QUIET, es).finalizer.AwaitIdle?
    ensures Streams(TaskRun(QUIET, es + RELAY_TURN + [FinalizerRuns(true)])) <==> WillBeIdle(TaskRun(QUIET, es))
  {
    hide RunRelay, LoopHead;
    var t := TaskRun(QUIET, es);
    RunKeepsOrderly(QUIET, es);
    if WillBeIdle(t) {
      hide RELAY_TURN;
      RunsAppend(QUIET, es + RELAY_TURN, [FinalizerRuns(true)]);
      RunsAppend(QUIET, es, RELAY_TURN);
      RelayWakesFinalizer(t);
      OneStep(TaskRun(t, RELAY_TURN), FinalizerRuns(true));
    } else {
      assert es + RELAY_TURN + [FinalizerRuns(true)] == es + (RELAY_TURN + [FinalizerRuns(true)]);
      HandoverHangs(es, RELAY_TURN + [FinalizerRuns(true)]);
    }
  }

  /** The finalizer waits for an event that nobody is left to set. */
  predicate Hangs(t: Tasks) {
    t.finalizer == AwaitIdle(false) && !WillBeIdle(t) && !t.readable && !Streams(t)
  }

  lemma HangsOn(t: Tasks, e: TaskEvent)
    requires Hangs(t) && !e.RelayStarts? && !e.FinalizerCancelled?
    ensures Hangs(TaskStep(t, e))
  {
  }

  lemma {:induction false} HangsForGood(t: Tasks, es: seq<TaskEvent>)
    requires Hangs(t) && forall e :: e in es ==> !e.RelayStarts? && !e.FinalizerCancelled?
    ensures Hangs(TaskRun(t, es))
    decreases |es|
  {
    hide TaskStep, Hangs;
    if es == [] {
    } else {
      HangsOn(t, es[0]);
      HangsForGood(TaskStep(t, es[0]), es[1..]);
    }
  }

  /** Otherwise it hangs, whatever happens, until a new relay comes or the finalizer is cancelled: the
      job waits out the handshake's timeout. */
  lemma HandoverHangs(es: seq<TaskEvent>, more: seq<TaskEvent>)
    requires var t := TaskRun(QUIET, es); t.finalizer.AwaitIdle? && !WillBeIdle(t)
    requires forall e :: e in more ==> !e.RelayStarts? && !e.FinalizerCancelled?
    ensures var u := TaskRun(QUIET, es + more); u.finalizer == AwaitIdle(false) && !Streams(u)
  {
    hide TaskStep;
    RunKeepsOrderly(QUIET, es);
    HangsForGood(TaskRun(QUIET, es), more);
    RunsAppend(QUIET, es, more);
  }

  /** A relay that ends leaves serial_read_idle cleared exactly when it was, and the relay was
      cancelled, or stopped inside its read, or stopped before it began. */
  lemma WhoLeavesIdleCleared(t: Tasks, e: TaskEvent)
    requires Orderly(t) && !t.relay.Absent? && TaskStep(t, e).relay.Absent?
    ensures !TaskStep(t, e).idle
            <==> !t.idle && (e.RelayCancelled? || t.relay.Starting? || (t.relay.Reading? && t.stopping))
  {
  }

  /** An ordinary disconnect is enough: the relay stops inside its read, and the next job, started
      from the web, hangs. */
  lemma DisconnectHangsTheNextJob()
    ensures Hangs(TaskRun(QUIET, [RelayStarts, RelayRuns(false), StopAsked, RelayRuns(false), JobStarts]))
  {
    FiveSteps(QUIET, RelayStarts, RelayRuns(false), StopAsked, RelayRuns(false), JobStarts);
  }

  /** When the streamer ends, the relay that waited reads again, unless another job takes the
      port first: being woken is not enough, it looks at serial_readable again. */
  lemma RelayLooksAgain(es: seq<TaskEvent>, next: seq<TaskEvent>)
    requires var t := TaskRun(QUIET, es); t.streamer.BetweenReads? && t.relay.AwaitReadable? && !t.stopping
    requires next == [] || next == [JobStarts]
    ensures var t := TaskRun(QUIET, es + [StreamerEnds] + next + [RelayRuns(false)]);
            t.relay == if next == [] then Reading(Queued, false) else AwaitReadable(false)
  {
    RunKeepsOrderly(QUIET, es);
    var t := TaskRun(QUIET, es);
    RunsAppend(QUIET, es + [StreamerEnds] + next, [RelayRuns(false)]);
    RunsAppend(QUIET, es + [StreamerEnds], next);
    RunsAppend(QUIET, es, [StreamerEnds]);
    OneStep(t, StreamerEnds);
    var t1 := TaskStep(t, StreamerEnds);
    OneStep(t1, JobStarts);
    var t2 := TaskRun(t1, next);
    OneStep(t2, RelayRuns(false));
  }

  // ----- What the events alone do not give -------------------------------------------------

  /** A relay that ended inside a read leaves that read behind, and a later relay can let the
      streamer start beside it. The read lock keeps the two apart: the streamer cannot take it
      until the left-over read has returned. */
  lemma OrphanMayOverlap()
    ensures var t := TaskRun(QUIET, [RelayStarts, RelayRuns(false), LockTaken(ByRelay), RelayCancelled, JobStarts]
                                    + [RelayStarts, RelayRuns(false), FinalizerRuns(true), StreamerReads,
                                       LockTaken(ByStreamer)]);
            && Streams(t) && t.orphansHolding == 1 && t.streamer.WantsRead?
            && TaskRun(t, [ReadEnds(ByOrphan), LockTaken(ByStreamer)]).streamer.HoldsRead?
  {
    hide TaskStep;
    var a := [RelayStarts, RelayRuns(false), LockTaken(ByRelay), RelayCancelled, JobStarts];
    var b := [RelayStarts, RelayRuns(false), FinalizerRuns(true), StreamerReads, LockTaken(ByStreamer)];
    RunsAppend(QUIET, a, b);
    RelayLeavesItsRead();
    StreamerStartsBeside();
    var t := TaskRun(QUIET, a + b);
    TwoSteps(t, ReadEnds(ByOrphan), LockTaken(ByStreamer));
    OrphanGivesWay(t);
  }

  lemma RelayLeavesItsRead()
    ensures TaskRun(QUIET, [RelayStarts, RelayRuns(false), LockTaken(ByRelay), RelayCancelled, JobStarts])
            == Tasks(Absent, false, 0, 1, AwaitIdle(false), NotStreaming, true, false, false, true)
  {
    FiveSteps(QUIET, RelayStarts, RelayRuns(false), LockTaken(ByRelay), RelayCancelled, JobStarts);
  }

  lemma StreamerStartsBeside()
    ensures TaskRun(Tasks(Absent, false, 0, 1, AwaitIdle(false), NotStreaming, true, false, false, true),
                    [RelayStarts, RelayRuns(false), FinalizerRuns(true), StreamerReads, LockTaken(ByStreamer)])
            == Tasks(AwaitReadable(false), false, 0, 1, NoFinalizer, WantsRead, true, false, true, false)
  {
    var t := Tasks(Absent, false, 0, 1, AwaitIdle(false), NotStreaming, true, false, false, true);
    FiveSteps(t, RelayStarts, RelayRuns(false), FinalizerRuns(true), StreamerReads, LockTaken(ByStreamer));
  }

  lemma OrphanGivesWay(t: Tasks)
    requires t.orphansHolding > 0 && t.streamer.WantsRead?
    ensures TaskStep(TaskStep(t, ReadEnds(ByOrphan)), LockTaken(ByStreamer)).streamer.HoldsRead?
  {
  }

  /** The port is nobody's: not the relay's to read, and no one is there to give it back. */
  predicate Stranded(t: Tasks) {
    !t.readable && !Streams(t) && t.finalizer.NoFinalizer?
  }

  lemma StrandedStep(t: Tasks, e: TaskEvent)
    requires Stranded(t)
    ensures Stranded(TaskStep(t, e))
    ensures !InRead(t.relay) ==> !InRead(TaskStep(t, e).relay)
  {
  }

  lemma {:induction false} StrandedStays(t: Tasks, es: seq<TaskEvent>)
    requires Stranded(t)
    ensures Stranded(TaskRun(t, es))
    ensures !InRead(t.relay) ==> !InRead(TaskRun(t, es).relay)
    decreases |es|
  {
    hide TaskStep;
    if es == [] {
    } else {
      StrandedStep(t, es[0]);
      StrandedStays(TaskStep(t, es[0]), es[1..]);
    }
  }

  /** Every step leaves the port with someone, but for the cancelling of a finalizer that waits. */
  lemma PortChangesHands(t: Tasks, e: TaskEvent)
    requires Orderly(t) && !Stranded(t)
    ensures Stranded(TaskStep(t, e)) <==> e.FinalizerCancelled? && t.finalizer.AwaitIdle?
  {
  }

  /** In every interleaving the port has become nobody's if and only if a finalizer was cancelled
      while it waited. */
  lemma {:induction false} PortIsStrandedExactly(es: seq<TaskEvent>)
    ensures Stranded(TaskRun(QUIET, es)) <==>
              exists k :: 0 <= k < |es| && es[k].FinalizerCancelled? && TaskRun(QUIET, es[..k]).finalizer.AwaitIdle?
  {
    hide TaskStep;
    if es == [] {
    } else {
      var n := |es| - 1;
      var b, last := es[..n], es[n];
      var t := TaskRun(QUIET, b);
      assert es == b + [last];
      RunsAppend(QUIET, b, [last]);
      OneStep(t, last);
      PortIsStrandedExactly(b);
      assert forall k :: 0 <= k < n ==> b[..k] == es[..k] && b[k] == es[k];
      RunKeepsOrderly(QUIET, b);
      if Stranded(t) {
        StrandedStep(t, last);
        var k :| 0 <= k < |b| && b[k].FinalizerCancelled? && TaskRun(QUIET, b[..k]).finalizer.AwaitIdle?;
        assert es[..k] == b[..k];
      } else {
        PortChangesHands(t, last);
      }
    }
  }

  /** A finalizer cancelled while it waits hands the port to nobody. Whatever follows, serial_readable
      is never set again and no streamer starts; a relay that was in a read may finish it, and once it
      has left it no relay begins another. */
  lemma CancelledFinalizerStrandsThePort(t: Tasks, es: seq<TaskEvent>, more: seq<TaskEvent>)
    requires Orderly(t) && t.finalizer.AwaitIdle?
    ensures var u := TaskRun(TaskStep(t, FinalizerCancelled), es);
            && !u.readable && !Streams(u)
            && (!InRead(u.relay) ==> !InRead(TaskRun(TaskStep(t, FinalizerCancelled), es + more).relay))
            && (InRead(u.relay) ==> !InRead(TaskRun(u, RELAY_TURN).relay))
  {
    var s := TaskStep(t, FinalizerCancelled);
    StrandedStays(s, es);
    var u := TaskRun(s, es);
    StrandedStays(u, more);
    RunsAppend(s, es, more);
    StepKeepsOrderly(t, FinalizerCancelled);
    RunKeepsOrderly(s, es);
    if InRead(u.relay) { RelayYields(u); }
  }

  /** It happens: the client is dropped, and its tasks with it, while its last line is handing over. */
  lemma StrandingHappens()
    ensures var t := TaskRun(QUIET, [RelayStarts, RelayRuns(false), LockTaken(ByRelay), JobStarts, FinalizerCancelled]);
            Stranded(t) && InRead(t.relay)
    ensures Stranded(TaskRun(QUIET, [RelayStarts, RelayRuns(false), JobStarts, FinalizerCancelled, RelayCancelled]))
  {
    FiveSteps(QUIET, RelayStarts, RelayRuns(false), LockTaken(ByRelay), JobStarts, FinalizerCancelled);
    FiveSteps(QUIET, RelayStarts, RelayRuns(false), JobStarts, FinalizerCancelled, RelayCancelled);
  }
}
