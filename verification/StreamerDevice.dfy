/** The streamer against a GRBL device whose acknowledgements may be lost, and which others may write
    lines to: every line the device still holds is accounted for, and so is what overfills its RX
    buffer. */
module StreamerDevice {
  import opened GrblMessages
  import opened Options
  import opened StreamerModel
  import opened StreamerLaws
  import opened StreamerWindow
  import opened StreamerTracking
  import opened StreamerRuns
  import opened StreamerInputs
  import opened StreamerGrowth

  /** A line that has reached the device: the streamer's, or one that another wrote. */
  datatype DeviceLine = Own(bytes: nat) | Foreign(bytes: nat)

  /** The streamer, the lines that have reached the device in their order, how many of them it has
      acknowledged, the acknowledgements on their way to the streamer, and those lost so far. */
  datatype World = World(s: Streamer, arrived: seq<DeviceLine>, acked: nat, wire: nat, lost: nat)

  /** The device acknowledges its oldest line, and the ok may be lost; the streamer takes an event;
      or another writes a line: what a chunk of the client's carried into the job, say. */
  datatype Move = Ack(lost: bool) | Stream(e: Event) | Written(bytes: nat)

  function Oks(ms: seq<Message>): nat {
    if ms == [] then 0 else (if ms[0].Ok? then 1 else 0) + Oks(ms[1..])
  }

  /** The oks that an event hands to the streamer. */
  function OksRead(s: Streamer, e: Event): nat {
    if s.point.AtRead? && e.Wake? && e.outcome.Done? then Oks(e.outcome.messages) else 0
  }

  /** A line being written reaches the device no later than the write's start. */
  function Play(c: Config, w: World, m: Move): World {
    match m
    case Ack(lost) =>
      if w.acked >= |w.arrived| then w
      else if lost then w.(acked := w.acked + 1, lost := w.lost + 1)
      else w.(acked := w.acked + 1, wire := w.wire + 1)
    case Stream(e) =>
      var s' := Step(c, w.s, e);
      w.(s := s',
         arrived := if s'.point.AtWrite? && !StillWriting(w.s, e) && Sending(s')
                    then w.arrived + [Own(LineBytes(s'.job.lines[s'.ctl.sent]))] else w.arrived,
         wire := if OksRead(w.s, e) <= w.wire then w.wire - OksRead(w.s, e) else 0)
    case Written(bytes) => w.(arrived := w.arrived + [Foreign(bytes)])
  }

  function Weights(ls: seq<DeviceLine>): (r: seq<nat>)
    ensures |r| == |ls|
  {
    seq(|ls|, i requires 0 <= i < |ls| => ls[i].bytes)
  }

  /** What the device still holds, oldest first. */
  function Unacked(w: World): seq<nat> {
    if w.acked <= |w.arrived| then Weights(w.arrived[w.acked..]) else []
  }

  /** The bytes of the streamer's own lines. */
  function OwnBytes(ls: seq<DeviceLine>): seq<nat> {
    if ls == [] then [] else (if ls[0].Own? then [ls[0].bytes] else []) + OwnBytes(ls[1..])
  }

  function Foreigns(ls: seq<DeviceLine>): nat {
    if ls == [] then 0 else (if ls[0].Foreign? then 1 else 0) + Foreigns(ls[1..])
  }

  /** The device sends no ok of its own accord: the streamer reads only oks that are on the wire. */
  ghost predicate Honest(c: Config, w: World, moves: seq<Move>)
    decreases |moves|
  {
    moves != [] ==>
      && (moves[0].Stream? ==> OksRead(w.s, moves[0].e) <= w.wire)
      && Honest(c, Play(c, w, moves[0]), moves[1..])
  }

  function PlayAll(c: Config, w: World, moves: seq<Move>): World
    decreases |moves|
  {
    if moves == [] then w else PlayAll(c, Play(c, w, moves[0]), moves[1..])
  }

  function Start(job: Job, t0: real): World {
    World(Init(job, t0), [], 0, 0, 0)
  }

  ghost function WorldOf(c: Config, job: Job, t0: real, moves: seq<Move>): World {
    PlayAll(c, Start(job, t0), moves)
  }

  // ----- Where every line is ---------------------------------------------------------------

  /** Oks that came with nothing in flight. */
  ghost function ExtraOks(h: History): nat {
    match h
    case Created(_) => 0
    case Then(b, Heard(Ok, _)) => ExtraOks(b) + (if InFlight(b) == 0 then 1 else 0)
    case Then(b, _) => ExtraOks(b)
  }

  lemma {:induction false} OksAppend(a: seq<Message>, b: seq<Message>)
    ensures Oks(a + b) == Oks(a) + Oks(b)
  {
    if a == [] {
      assert a + b == b;
    } else {
      assert (a + b)[1..] == a[1..] + b;
      OksAppend(a[1..], b);
    }
  }

  /** Of the lines started some are in flight, some were acknowledged, and some written off; extra
      oks acknowledged nothing. */
  lemma {:induction false} FlightAddsUp(h: History)
    ensures InFlight(h) + Oks(HeardIn(h)) + WrittenOff(h) == LinesStarted(h) + ExtraOks(h)
    ensures InFlight(h) <= LinesStarted(h)
  {
    if h.Created? {
    } else {
      FlightAddsUp(h.before);
      if h.last.Heard? {
        OksAppend(HeardIn(h.before), [h.last.msg]);
        assert [h.last.msg][1..] == [];
      }
    }
  }

  /** Each line acknowledged has its ok on the wire, lost, read or waiting to be handled; the lines
      that are not foreign are those started, in order. */
  ghost predicate Balanced(w: World) {
    var h := w.s.history;
    && w.acked == w.wire + w.lost + Oks(HeardIn(h) + w.s.pending) && w.acked <= |w.arrived|
    && LinesStarted(h) <= |w.s.job.lines|
    && OwnBytes(w.arrived) == LengthsOf(w.s.job.lines[..LinesStarted(h)])
  }

  lemma {:induction false} OwnAppend(a: seq<DeviceLine>, b: seq<DeviceLine>)
    ensures OwnBytes(a + b) == OwnBytes(a) + OwnBytes(b) && Foreigns(a + b) == Foreigns(a) + Foreigns(b)
  {
    if a == [] {
      assert a + b == b;
    } else {
      assert (a + b)[1..] == a[1..] + b;
      OwnAppend(a[1..], b);
    }
  }

  lemma OneArrives(ls: seq<DeviceLine>, l: DeviceLine)
    ensures OwnBytes(ls + [l]) == OwnBytes(ls) + if l.Own? then [l.bytes] else []
    ensures Foreigns(ls + [l]) == Foreigns(ls) + if l.Own? then 0 else 1
  {
    OwnAppend(ls, [l]);
    assert [l][1..] == [];
  }

  lemma {:induction false} OwnAndForeign(ls: seq<DeviceLine>)
    ensures |OwnBytes(ls)| + Foreigns(ls) == |ls|
    ensures (forall l :: l in ls ==> l.Own?) ==> OwnBytes(ls) == Weights(ls)
  {
    if ls == [] {
    } else {
      OwnAndForeign(ls[1..]);
      assert forall l :: l in ls[1..] ==> l in ls;
      assert Weights(ls) == [ls[0].bytes] + Weights(ls[1..]);
    }
  }

  lemma NewestGrows(lines: seq<string>, n: nat, k: nat)
    requires k <= n < |lines|
    ensures NewestSent(lines, n + 1, k + 1) == NewestSent(lines, n, k) + [LineBytes(lines[n])]
    ensures k > 0 ==> NewestSent(lines, n, k)[1..] == NewestSent(lines, n, k - 1)
  {
    assert lines[n - k .. n + 1] == lines[n - k .. n] + [lines[n]];
  }

  lemma OldestGoes(lines: seq<string>, n: nat, k: nat)
    requires 0 < k <= n <= |lines|
    ensures NewestSent(lines, n, k)[1..] == NewestSent(lines, n, k - 1)
  {
  }

  /** Where the line being written stands among those started. */
  lemma WritingIsNewest(c: Config, s: Streamer)
    requires Inv(c, s) && s.point.AtWrite?
    ensures Sending(s) && LinesStarted(s.history) == s.ctl.sent + 1
  {
  }

  lemma EventDelivers(c: Config, s: Streamer, e: Event)
    requires WindowOk(c, s) && Suspended(s.point)
    ensures Oks(HeardIn(Step(c, s, e).history) + Step(c, s, e).pending)
         == Oks(HeardIn(s.history) + s.pending) + OksRead(s, e)
  {
    hide Step, InFlightOk, DrainOk;
    StepTakes(c, s, e);
    OksAppend(HeardIn(s.history) + s.pending, Delivers(s, e).heard);
  }

  lemma StreamBalances(c: Config, w: World, e: Event)
    requires Inv(c, w.s) && Suspended(w.s.point) && Balanced(w) && OksRead(w.s, e) <= w.wire
    ensures Balanced(Play(c, w, Stream(e)))
  {
    hide Step, LawKept, WindowOk, OksRead, LineBytes, HeardIn, Once, WrittenOff, OwnBytes, LengthsOf;
    var s, s' := w.s, Step(c, w.s, e);
    StepKeeps(c, s, e);
    StepGrows(c, s, e);
    EventDelivers(c, s, e);
    StepSameJob(c, s, e);
    if s'.point.AtWrite? && !StillWriting(s, e) {
      WritingIsNewest(c, s');
      var n := LinesStarted(s.history);
      OneArrives(w.arrived, Own(LineBytes(s.job.lines[n])));
      LengthsOfMore(s.job.lines, n);
    }
  }

  lemma StepSameJob(c: Config, s: Streamer, e: Event)
    ensures Step(c, s, e).job == s.job
  {
    hide Step;
    SameJob(c, s, [e]);
    assert Run(c, s, [e]) == Run(c, Step(c, s, e), []);
  }

  lemma {:induction false} PlayAllBalances(c: Config, w: World, moves: seq<Move>)
    requires Inv(c, w.s) && Suspended(w.s.point) && Balanced(w) && Honest(c, w, moves)
    ensures var w' := PlayAll(c, w, moves);
            Inv(c, w'.s) && Suspended(w'.s.point) && Balanced(w') && w'.s.job == w.s.job
    decreases |moves|
  {
    hide LawKept, WindowOk, Step, NewestSent, OksRead, HeardIn;
    if moves == [] {
    } else {
      match moves[0] {
        case Ack(_) =>
        case Written(n) => OneArrives(w.arrived, Foreign(n));
        case Stream(e) =>
          StreamBalances(c, w, e);
          StepKeeps(c, w.s, e);
          StepSameJob(c, w.s, e);
      }
      PlayAllBalances(c, Play(c, w, moves[0]), moves[1..]);
    }
  }

  lemma StartBalances(c: Config, job: Job, t0: real)
    ensures Inv(c, Init(job, t0)) && Balanced(Start(job, t0))
  {
    InitInv(c, job, t0);
  }

  /** Oks that account for a line the streamer does not count: lost, on the wire, queued unhandled,
      or come with nothing in flight. */
  ghost function Excused(w: World): nat {
    w.lost + w.wire + Oks(w.s.pending) + ExtraOks(w.s.history)
  }

  /** Lines that came to the device beside what the streamer counts: others' lines, and lines that
      resyncs wrote off. */
  ghost function Beside(w: World): nat {
    Foreigns(w.arrived) + WrittenOff(w.s.history)
  }

  /** Whatever acknowledgements are lost, however often the streamer resyncs, and whoever else writes:
      what the device holds and what it has acknowledged unseen are what the streamer counts in flight,
      what others wrote and what resyncs wrote off. So the device holds more lines than the streamer
      counts exactly when more came beside than is excused. */
  lemma DeviceIsAccountedFor(c: Config, job: Job, t0: real, moves: seq<Move>)
    requires Honest(c, Start(job, t0), moves)
    ensures var w := WorldOf(c, job, t0, moves); var h := w.s.history;
            && |Unacked(w)| + Excused(w) == InFlight(h) + Beside(w)
            && (|Unacked(w)| > InFlight(h) <==> Beside(w) > Excused(w))
            && w.acked <= |w.arrived| && LinesStarted(h) <= |job.lines|
            && OwnBytes(w.arrived) == LengthsOf(job.lines[..LinesStarted(h)])
  {
    hide LawKept, WindowOk, OwnBytes, Foreigns;
    StartBalances(c, job, t0);
    PlayAllBalances(c, Start(job, t0), moves);
    var w := WorldOf(c, job, t0, moves);
    FlightAddsUp(w.s.history);
    OksAppend(HeardIn(w.s.history), w.s.pending);
    OwnAndForeign(w.arrived);
  }

  // ----- The RX buffer ---------------------------------------------------------------------

  predicate EveryLineFits(c: Config, lines: seq<string>) {
    forall i :: 0 <= i < |lines| ==> LineBytes(lines[i]) <= c.rxSize
  }

  predicate Stopped(s: Streamer) {
    s.point.AtFailsafe? || s.point.Finished?
  }

  /** The lines in flight, the one being written included, fit the RX buffer. */
  ghost predicate FlightFits(c: Config, s: Streamer) {
    var h := s.history;
    && InFlight(h) <= LinesStarted(h) <= |s.job.lines|
    && Sum(NewestSent(s.job.lines, LinesStarted(h), InFlight(h))) <= c.rxSize
  }

  lemma RunningFits(c: Config, s: Streamer)
    requires Inv(c, s) && !Stopped(s) && EveryLineFits(c, s.job.lines) && c.rxSize >= 0
    ensures FlightFits(c, s)
  {
    hide Lawful, FactsOf, HoldTracks, PaceTracks, Calm, TurnTracks, IdleTracks, RxTracks, LineBytes, Free, PointOk;
    var lines, sent, k := s.job.lines, s.ctl.sent, |s.win.lengths|;
    var writing := if s.point.AtWrite? then 1 else 0;
    CountsFromFacts(s.history);
    assert LinesStarted(s.history) == sent + writing && InFlight(s.history) == k + writing;
    if s.point.AtWrite? {
      assert Sending(s) by { WritingIsNewest(c, s); }
      NewestGrows(lines, sent, k);
      assert Fits(c, s.win.lengths + [LineBytes(lines[sent])]);
    }
    OneLineFits(c, lines, sent + writing, k + writing);
  }

  lemma CountsFromFacts(h: History)
    ensures FactsOf(h).out.started == LinesStarted(h) && FactsOf(h).out.inFlight == InFlight(h)
  {
  }

  lemma OneLineFits(c: Config, lines: seq<string>, n: nat, k: nat)
    requires k <= n <= |lines| && Fits(c, NewestSent(lines, n, k)) && EveryLineFits(c, lines) && c.rxSize >= 0
    ensures Sum(NewestSent(lines, n, k)) <= c.rxSize
  {
    hide LineBytes;
    var f := NewestSent(lines, n, k);
    if |f| == 1 {
      assert f[0] == LineBytes(lines[n - 1]) && f[1..] == [];
    } else if |f| == 0 {
      assert f == [];
    }
  }

  /** While no line is started, lines in flight only become fewer. */
  lemma {:induction false} FlightShrinks(h: History, h': History)
    requires Once(h, h')
    ensures LinesStarted(h) <= LinesStarted(h') && ExtraOks(h) <= ExtraOks(h')
    ensures LinesStarted(h) == LinesStarted(h') ==> InFlight(h') <= InFlight(h)
  {
    if h == h' {
    } else {
      FlightShrinks(h, h'.before);
    }
  }

  lemma {:induction false} FewerWeighLess(lines: seq<string>, n: nat, j: nat, k: nat)
    requires j <= k <= n <= |lines|
    ensures Sum(NewestSent(lines, n, j)) <= Sum(NewestSent(lines, n, k))
    decreases k
  {
    if j == k {
    } else {
      OldestGoes(lines, n, k);
      FewerWeighLess(lines, n, j, k - 1);
    }
  }

  lemma StepFits(c: Config, s: Streamer, e: Event)
    requires Inv(c, s) && Suspended(s.point) && EveryLineFits(c, s.job.lines) && c.rxSize >= 0
    requires FlightFits(c, s)
    ensures FlightFits(c, Step(c, s, e))
  {
    hide Step, LawKept, WindowOk, WrittenOff, NewestSent, LineBytes, Once;
    var s' := Step(c, s, e);
    StepKeeps(c, s, e);
    StepSameJob(c, s, e);
    if Stopped(s') {
      StepGrows(c, s, e);
      FlightShrinks(s.history, s'.history);
      FewerWeighLess(s.job.lines, LinesStarted(s.history), InFlight(s'.history), InFlight(s.history));
    } else {
      RunningFits(c, s');
    }
  }

  lemma {:induction false} PlayAllFits(c: Config, w: World, moves: seq<Move>)
    requires Inv(c, w.s) && Suspended(w.s.point) && EveryLineFits(c, w.s.job.lines) && c.rxSize >= 0
    requires FlightFits(c, w.s)
    ensures FlightFits(c, PlayAll(c, w, moves).s)
    decreases |moves|
  {
    hide LawKept, WindowOk, Step, FlightFits, EveryLineFits, OksRead;
    if moves == [] {
    } else {
      if moves[0].Stream? {
        StepKeeps(c, w.s, moves[0].e);
        StepSameJob(c, w.s, moves[0].e);
        StepFits(c, w.s, moves[0].e);
      }
      PlayAllFits(c, Play(c, w, moves[0]), moves[1..]);
    }
  }

  /** How many of the newest lines fit into rx bytes, k of them known to. */
  function FitFrom(rx: int, ls: seq<nat>, k: nat): (n: nat)
    requires k <= |ls|
    ensures k <= n <= |ls|
    decreases |ls| - k
  {
    if k < |ls| && Sum(ls[|ls| - k - 1..]) <= rx then FitFrom(rx, ls, k + 1) else k
  }

  function Fitting(rx: int, ls: seq<nat>): nat {
    FitFrom(rx, ls, 0)
  }

  lemma OneOlder(ls: seq<nat>, k: nat)
    requires k < |ls|
    ensures Sum(ls[|ls| - k - 1..]) == ls[|ls| - k - 1] + Sum(ls[|ls| - k..])
  {
    var t := ls[|ls| - k - 1..];
    assert t[1..] == ls[|ls| - k..] && t[0] == ls[|ls| - k - 1];
  }

  lemma {:induction false} OlderWeighMore(ls: seq<nat>, j: nat, k: nat)
    requires j <= k <= |ls|
    ensures Sum(ls[|ls| - j..]) <= Sum(ls[|ls| - k..])
    decreases k
  {
    if j == k {
    } else {
      OneOlder(ls, k - 1);
      OlderWeighMore(ls, j, k - 1);
    }
  }

  lemma {:induction false} FitFromExactly(rx: int, ls: seq<nat>, k: nat, m: nat)
    requires k <= |ls| && m <= |ls| && Sum(ls[|ls| - k..]) <= rx
    ensures Sum(ls[|ls| - m..]) <= rx <==> m <= FitFrom(rx, ls, k)
    decreases |ls| - k
  {
    hide Sum;
    if m <= k {
      OlderWeighMore(ls, m, k);
    } else if Sum(ls[|ls| - k - 1..]) <= rx {
      FitFromExactly(rx, ls, k + 1, m);
    } else {
      OlderWeighMore(ls, k + 1, m);
    }
  }

  /** At every moment of every run: the lines the device holds exceed rx bytes exactly when there are
      more of them, by the streamer's count and what came beside, than the newest that fit. */
  lemma RxOverflowsExactly(c: Config, job: Job, t0: real, moves: seq<Move>)
    requires c.rxSize >= 0 && Honest(c, Start(job, t0), moves)
    ensures var w := WorldOf(c, job, t0, moves);
            Sum(Unacked(w)) > c.rxSize
            <==> InFlight(w.s.history) + Beside(w) - Excused(w) > Fitting(c.rxSize, Weights(w.arrived))
  {
    hide Excused, Beside, OwnBytes, FitFrom;
    DeviceIsAccountedFor(c, job, t0, moves);
    var w := WorldOf(c, job, t0, moves);
    var ls, m := Weights(w.arrived), |Unacked(w)|;
    assert Unacked(w) == ls[|ls| - m..];
    assert Sum(ls[|ls| - 0..]) == 0 by { assert ls[|ls|..] == []; }
    FitFromExactly(c.rxSize, ls, 0, m);
  }

  /** Lines at the end that are all the streamer's are the newest it started. */
  lemma OwnAreNewest(lines: seq<string>, n: nat, ls: seq<DeviceLine>, a: nat)
    requires n <= |lines| && a <= |ls| && OwnBytes(ls) == LengthsOf(lines[..n]) && forall l :: l in ls[a..] ==> l.Own?
    ensures |ls| - a <= n && Weights(ls[a..]) == NewestSent(lines, n, |ls| - a)
  {
    hide OwnBytes, Foreigns, LineBytes;
    assert ls == ls[..a] + ls[a..];
    OwnAppend(ls[..a], ls[a..]);
    OwnAndForeign(ls[a..]);
    var k := |OwnBytes(ls[..a])|;
    assert Weights(ls[a..]) == LengthsOf(lines[..n])[k..];
    LengthsOfTail(lines, n, k);
  }

  lemma LengthsOfTail(lines: seq<string>, n: nat, k: nat)
    requires k <= n <= |lines|
    ensures LengthsOf(lines[..n])[k..] == LengthsOf(lines[k..n])
  {
    hide LineBytes;
    assert forall i :: 0 <= i < n - k ==> lines[k..n][i] == lines[..n][k + i];
  }

  lemma LengthsOfMore(lines: seq<string>, n: nat)
    requires n < |lines|
    ensures LengthsOf(lines[..n + 1]) == LengthsOf(lines[..n]) + [LineBytes(lines[n])]
  {
    hide LineBytes;
    assert lines[..n + 1] == lines[..n] + [lines[n]];
  }

  /** While no more came beside than is excused, and the device holds no one else's line, its RX
      buffer does not overflow: at every moment of every run. */
  lemma RxHoldsWhileExcused(c: Config, job: Job, t0: real, moves: seq<Move>)
    requires EveryLineFits(c, job.lines) && c.rxSize >= 0 && Honest(c, Start(job, t0), moves)
    ensures var w := WorldOf(c, job, t0, moves);
            w.acked <= |w.arrived|
            && (Beside(w) <= Excused(w) && (forall l :: l in w.arrived[w.acked..] ==> l.Own?)
                ==> Sum(Unacked(w)) <= c.rxSize)
  {
    hide LawKept, WindowOk, NewestSent, Excused, Beside, OwnBytes;
    StartBalances(c, job, t0);
    RunningFits(c, Init(job, t0));
    PlayAllFits(c, Start(job, t0), moves);
    DeviceIsAccountedFor(c, job, t0, moves);
    PlayAllBalances(c, Start(job, t0), moves);
    var w := WorldOf(c, job, t0, moves);
    if |Unacked(w)| <= InFlight(w.s.history) && forall l :: l in w.arrived[w.acked..] ==> l.Own? {
      OwnAreNewest(job.lines, LinesStarted(w.s.history), w.arrived, w.acked);
      FewerWeighLess(job.lines, LinesStarted(w.s.history), |Unacked(w)|, InFlight(w.s.history));
    }
  }

  // ----- Runs without a resync, and runs whose resyncs are right ----------------------------

  ghost predicate Resynced(h: History) {
    h.Then? && (h.last.PhantomResync? || h.last.IdleResync? || Resynced(h.before))
  }

  lemma {:induction false} NothingWrittenOff(h: History)
    requires !Resynced(h)
    ensures WrittenOff(h) == 0
  {
    if h.Created? {
    } else {
      NothingWrittenOff(h.before);
    }
  }

  /** The streamer has the device to itself. */
  predicate Alone(moves: seq<Move>) {
    forall m :: m in moves ==> !m.Written?
  }

  lemma {:induction false} NothingForeign(c: Config, w: World, moves: seq<Move>)
    requires Alone(moves)
    ensures Foreigns(PlayAll(c, w, moves).arrived) == Foreigns(w.arrived)
    decreases |moves|
  {
    hide Step, OksRead, Foreigns;
    if moves == [] {
    } else {
      assert moves[0] in moves && forall m :: m in moves[1..] ==> m in moves;
      var w1 := Play(c, w, moves[0]);
      if w1.arrived != w.arrived { OneArrives(w.arrived, w1.arrived[|w.arrived|]); }
      NothingForeign(c, w1, moves[1..]);
    }
  }

  lemma {:induction false} NoForeignLine(ls: seq<DeviceLine>, n: nat)
    requires Foreigns(ls) == 0 && n <= |ls|
    ensures forall l :: l in ls[n..] ==> l.Own?
  {
    if ls == [] {
    } else if n == 0 {
      NoForeignLine(ls[1..], 0);
      assert ls[0..] == [ls[0]] + ls[1..][0..];
    } else {
      NoForeignLine(ls[1..], n - 1);
      assert ls[n..] == ls[1..][n - 1..];
    }
  }

  lemma AloneHolds(c: Config, job: Job, t0: real, moves: seq<Move>)
    requires EveryLineFits(c, job.lines) && c.rxSize >= 0 && Honest(c, Start(job, t0), moves) && Alone(moves)
    ensures var w := WorldOf(c, job, t0, moves);
            WrittenOff(w.s.history) <= Excused(w) ==> Sum(Unacked(w)) <= c.rxSize
  {
    hide Excused, OwnBytes, Unacked;
    var w := WorldOf(c, job, t0, moves);
    RxHoldsWhileExcused(c, job, t0, moves);
    NothingForeign(c, Start(job, t0), moves);
    NoForeignLine(w.arrived, w.acked);
  }

  /** In a run without a resync, and with no one else writing, nothing has to be asked: whatever oks
      are lost, the device's RX buffer never overflows. */
  lemma RxNeverOverflows(c: Config, job: Job, t0: real, moves: seq<Move>)
    requires EveryLineFits(c, job.lines) && c.rxSize >= 0 && Honest(c, Start(job, t0), moves) && Alone(moves)
    ensures var w := WorldOf(c, job, t0, moves);
            Sum(Unacked(w)) <= c.rxSize || Resynced(w.s.history)
  {
    var w := WorldOf(c, job, t0, moves);
    AloneHolds(c, job, t0, moves);
    if !Resynced(w.s.history) { NothingWrittenOff(w.s.history); }
  }

  /** The event makes the streamer resync and start the next line. */
  ghost predicate Resyncs(c: Config, s: Streamer, e: Event) {
    !StillWriting(s, e) && Step(c, s, e).point.AtWrite? && EndsInResync(Step(c, s, e).history)
  }

  /** A resync that is right: the device has acknowledged everything, and no ok of its is left on
      the wire or in the streamer's queue. */
  ghost predicate RightResync(c: Config, w: World, e: Event) {
    Unacked(w) == [] && w.wire == OksRead(w.s, e) && Oks(Step(c, w.s, e).pending) == 0
  }

  ghost predicate RightResyncs(c: Config, w: World, moves: seq<Move>)
    decreases |moves|
  {
    moves != [] ==>
      && (moves[0].Stream? && Resyncs(c, w.s, moves[0].e) ==> RightResync(c, w, moves[0].e))
      && RightResyncs(c, Play(c, w, moves[0]), moves[1..])
  }

  /** What came beside is covered by lost and extra oks alone. */
  ghost predicate Settled(w: World) {
    Beside(w) <= w.lost + ExtraOks(w.s.history)
  }

  lemma RightStepSettles(c: Config, w: World, e: Event)
    requires Inv(c, w.s) && Suspended(w.s.point) && Balanced(w) && OksRead(w.s, e) <= w.wire && Settled(w)
    requires Resyncs(c, w.s, e) ==> RightResync(c, w, e)
    ensures Settled(Play(c, w, Stream(e)))
  {
    hide Step, LawKept, WindowOk, OksRead, LineBytes, HeardIn, Once, OwnBytes, Foreigns;
    var w' := Play(c, w, Stream(e));
    StepGrows(c, w.s, e);
    FlightShrinks(w.s.history, w'.s.history);
    if w'.arrived != w.arrived { OneArrives(w.arrived, w'.arrived[|w.arrived|]); }
    if Resyncs(c, w.s, e) {
      StreamBalances(c, w, e);
      FlightAddsUp(w'.s.history);
      OksAppend(HeardIn(w'.s.history), w'.s.pending);
      OwnAndForeign(w'.arrived);
      assert InFlight(w'.s.history) == 1;
      assert |w.arrived| == w.acked by { assert |Unacked(w)| == 0; }
    }
  }

  lemma {:induction false} RightResyncsSettle(c: Config, w: World, moves: seq<Move>)
    requires Inv(c, w.s) && Suspended(w.s.point) && Balanced(w) && Settled(w)
    requires Honest(c, w, moves) && RightResyncs(c, w, moves) && Alone(moves)
    ensures Settled(PlayAll(c, w, moves))
    decreases |moves|
  {
    hide LawKept, WindowOk, Step, Balanced, Resyncs, RightResync, OksRead, Foreigns;
    if moves == [] {
    } else {
      assert moves[0] in moves && forall m :: m in moves[1..] ==> m in moves;
      var w1 := Play(c, w, moves[0]);
      assert PlayAll(c, w, [moves[0]]) == w1 by { assert [moves[0]][1..] == []; }
      assert Honest(c, w, [moves[0]]) by { assert [moves[0]][1..] == []; }
      PlayAllBalances(c, w, [moves[0]]);
      if moves[0].Stream? { RightStepSettles(c, w, moves[0].e); }
      RightResyncsSettle(c, w1, moves[1..]);
    }
  }

  /** If at every resync the device has acknowledged everything, and no one else writes, its RX buffer
      never overflows, whatever oks are lost and however often the streamer resyncs. */
  lemma RxHoldsAcrossResyncs(c: Config, job: Job, t0: real, moves: seq<Move>)
    requires EveryLineFits(c, job.lines) && c.rxSize >= 0 && Alone(moves)
    requires Honest(c, Start(job, t0), moves) && RightResyncs(c, Start(job, t0), moves)
    ensures Sum(Unacked(WorldOf(c, job, t0, moves))) <= c.rxSize
  {
    hide LawKept, WindowOk, Balanced, Unacked;
    StartBalances(c, job, t0);
    RightResyncsSettle(c, Start(job, t0), moves);
    AloneHolds(c, job, t0, moves);
  }

  // ----- Both can happen -------------------------------------------------------------------

  function IdleReport(): Message {
    Status(StatusReport("Idle", None, None, None, None, None, None, None, None))
  }

  const TWO_LINES := Job(["G1X1234", "G1X5678"], Some(0.0))
  const SMALL_BUFFER := Config(10, 1.0, 5.0, 3.0)

  lemma EightBytes()
    ensures LineBytes("G1X1234") == 8 && LineBytes("G1X5678") == 8
  {
    Ascii("G1X1234");
    Ascii("G1X5678");
  }

  lemma {:induction false} Ascii(s: string)
    requires forall i :: 0 <= i < |s| ==> s[i] < '\U{80}'
    ensures Utf8Length(s) == |s|
  {
    if s == [] {
    } else {
      Ascii(s[1..]);
    }
  }

  /** A device that says Idle three times while it still holds an unacknowledged line is sent the
      next line on top of it. */
  lemma ResyncMayOverflow()
    ensures var c := SMALL_BUFFER;
            var moves := [Stream(Wake(0.0, Done([]))), Stream(Wake(0.0, Done([]))),
                          Stream(Wake(0.0, Done([IdleReport(), IdleReport(), IdleReport()])))];
            && EveryLineFits(c, TWO_LINES.lines)
            && Honest(c, Start(TWO_LINES, 0.0), moves)
            && Sum(Unacked(WorldOf(c, TWO_LINES, 0.0, moves))) > c.rxSize
  {
    hide Advance, Continue;
    EightBytes();
    var c := SMALL_BUFFER;
    var w0 := Start(TWO_LINES, 0.0);
    var e := Wake(0.0, Done([]));
    var s1 := FirstLine(c);
    var w1 := World(s1, [Own(8)], 0, 0, 0);
    assert Play(c, w0, Stream(e)) == w1 by { assert [] + [Own(8)] == [Own(8)]; }
    var s2 := SecondLineWaits(c, s1);
    var w2 := World(s2, [Own(8)], 0, 0, 0);
    assert Play(c, w1, Stream(e)) == w2;
    var e3 := Wake(0.0, Done([IdleReport(), IdleReport(), IdleReport()]));
    var s3 := ThreeIdles(c, s2);
    assert Oks(e3.outcome.messages) == 0;
    var w3 := World(s3, [Own(8)] + [Own(8)], 0, 0, 0);
    assert Play(c, w2, Stream(e3)) == w3;
    ThreeMoves(c, w0, Stream(e), Stream(e), Stream(e3));
    assert Unacked(w3) == [8, 8];
    SumOfTwo();
  }

  lemma SumOfTwo()
    ensures Sum([8, 8]) == 16
  {
    assert [8, 8][1..] == [8] && [8][1..] == [];
  }

  /** A line of someone else's that the device still holds is enough: the streamer's first line joins
      it, though no resync was made and the streamer counts one line. */
  lemma ForeignLineMayOverflow()
    ensures var moves := [Written(8), Stream(Wake(0.0, Done([])))];
            var w := WorldOf(SMALL_BUFFER, TWO_LINES, 0.0, moves);
            && EveryLineFits(SMALL_BUFFER, TWO_LINES.lines) && Honest(SMALL_BUFFER, Start(TWO_LINES, 0.0), moves)
            && Sum(Unacked(w)) > SMALL_BUFFER.rxSize && w.s.win.lengths == [] && w.s.point.AtWrite?
  {
    hide Advance, Continue;
    EightBytes();
    var c, e := SMALL_BUFFER, Wake(0.0, Done([]));
    var w0 := Start(TWO_LINES, 0.0);
    var w1 := Play(c, w0, Written(8));
    assert w1.arrived == [Foreign(8)];
    var s1 := FirstLine(c);
    var w2 := World(s1, [Foreign(8)] + [Own(8)], 0, 0, 0);
    assert Play(c, w1, Stream(e)) == w2;
    var moves := [Written(8), Stream(e)];
    assert moves[1..] == [Stream(e)] && [Stream(e)][1..] == [];
    assert PlayAll(c, w1, [Stream(e)]) == w2 && Honest(c, w1, [Stream(e)]);
    assert Unacked(w2) == [8, 8];
    SumOfTwo();
  }

  lemma ThreeMoves(c: Config, w: World, a: Move, b: Move, d: Move)
    ensures PlayAll(c, w, [a, b, d]) == Play(c, Play(c, Play(c, w, a), b), d)
    ensures Honest(c, w, [a, b, d]) <==>
              && (a.Stream? ==> OksRead(w.s, a.e) <= w.wire)
              && (b.Stream? ==> OksRead(Play(c, w, a).s, b.e) <= Play(c, w, a).wire)
              && (d.Stream? ==> OksRead(Play(c, Play(c, w, a), b).s, d.e) <= Play(c, Play(c, w, a), b).wire)
  {
    hide Play, OksRead;
    var w1, w2 := Play(c, w, a), Play(c, Play(c, w, a), b);
    assert [a, b, d][1..] == [b, d] && [b, d][1..] == [d] && [d][1..] == [];
    assert PlayAll(c, w2, [d]) == Play(c, w2, d) && PlayAll(c, w1, [b, d]) == Play(c, w2, d);
    assert Honest(c, w2, [d]) <==> (d.Stream? ==> OksRead(w2.s, d.e) <= w2.wire);
    assert Honest(c, w1, [b, d]) <==> (b.Stream? ==> OksRead(w1.s, b.e) <= w1.wire) && Honest(c, w2, [d]);
  }

  lemma IdleMeansNothing(w: Watch)
    requires w == Init(TWO_LINES, 0.0).watch
    ensures StatusCheck(w, false, IdleReport().report, 0.0) == Verdict(w, None, false, false)
  {
    var idle := "Idle";
    assert "Alarm"[0] != idle[0] && "Hold"[0] != idle[0] && "Door"[0] != idle[0];
  }

  lemma FirstLine(c: Config) returns (s: Streamer)
    requires c == SMALL_BUFFER
    ensures s == Step(c, Init(TWO_LINES, 0.0), Wake(0.0, Done([])))
    ensures s.point.AtWrite? && s.job == TWO_LINES && s.ctl == Control(false, false, 0, 2, 0.0)
            && s.win == Window(0, [], 0, 0, 0) && s.watch == Init(TWO_LINES, 0.0).watch && s.pending == []
  {
    hide Advance, Handle, WaitTurn, Finish, Raise, LineBytes;
    EightBytes();
    var a := Continue(c, Init(TWO_LINES, 0.0), 0.0, Done([]));
    AdvanceTurn(c, a, 0.0);
    var b := Micro(c, a, 0.0);
    assert b.point.PollBeforeLine?;
    AdvanceTurn(c, b, 0.0);
    var d := Micro(c, b, 0.0);
    assert d.point.CheckCancel?;
    AdvanceTurn(c, d, 0.0);
    var f := Micro(c, d, 0.0);
    assert f.point.SendHead?;
    AdvanceTurn(c, f, 0.0);
    s := Micro(c, f, 0.0);
    AdvanceTurn(c, s, 0.0);
  }

  lemma NoStallYet(c: Config, w: Watch)
    requires c == SMALL_BUFFER && w == Init(TWO_LINES, 0.0).watch
    ensures StallCheck(c, 0.0, w, false, 0.0) == (w, None)
  {
  }

  lemma SecondLineWaits(c: Config, s1: Streamer) returns (s: Streamer)
    requires c == SMALL_BUFFER
    requires s1.point.AtWrite? && s1.job == TWO_LINES && s1.ctl == Control(false, false, 0, 2, 0.0)
             && s1.win == Window(0, [], 0, 0, 0) && s1.watch == Init(TWO_LINES, 0.0).watch && s1.pending == []
    ensures s == Step(c, s1, Wake(0.0, Done([])))
    ensures s.point.AtRead? && s.job == TWO_LINES && s.ctl == Control(false, false, 1, 2, 0.0)
            && s.win == Window(8, [8], 0, 0, 0) && s.watch == Init(TWO_LINES, 0.0).watch && s.pending == []
  {
    hide Advance, Handle, Finish, Raise, StallCheck, LineBytes;
    EightBytes();
    var a := Continue(c, s1, 0.0, Done([]));
    AdvanceTurn(c, a, 0.0);
    assert a.win.lengths == [8];
    var b := Micro(c, a, 0.0);
    assert b.point.PollBeforeLine?;
    AdvanceTurn(c, b, 0.0);
    var d := Micro(c, b, 0.0);
    assert d.point.CheckCancel?;
    AdvanceTurn(c, d, 0.0);
    var f := Micro(c, d, 0.0);
    assert f.point.SendHead?;
    AdvanceTurn(c, f, 0.0);
    var g := Micro(c, f, 0.0);
    assert g.point.WaitHead?;
    AdvanceTurn(c, g, 0.0);
    NoStallYet(c, s1.watch);
    var h := Micro(c, g, 0.0);
    assert h.point.TakeMessage?;
    AdvanceTurn(c, h, 0.0);
    s := Micro(c, h, 0.0);
    AdvanceTurn(c, s, 0.0);
  }

  /** One Idle report while the second line waits. */
  lemma OneIdle(c: Config, s: Streamer) returns (s': Streamer)
    requires c == SMALL_BUFFER && s.point.TakeMessage? && s.pending != [] && s.pending[0] == IdleReport()
    requires s.job == TWO_LINES && s.ctl == Control(false, false, 1, 2, 0.0) && s.win.lengths == [8] && s.win.used == 8
    requires s.watch == Init(TWO_LINES, 0.0).watch
    requires s.win.idlePolls <= 2 && s.win == Window(8, [8], s.win.idlePolls, 0, 0)
    ensures Advance(c, s, 0.0) == Advance(c, s', 0.0) && s'.job == TWO_LINES && s'.ctl == s.ctl && s'.watch == s.watch
    ensures s.win.idlePolls < 2 ==>
              && s'.point.TakeMessage? && s'.pending == s.pending[1..]
              && s'.win == Window(8, [8], s.win.idlePolls + 1, 0, 0)
    ensures s.win.idlePolls == 2 ==> s'.point.AtWrite?
  {
    hide Advance, StatusCheck;
    EightBytes();
    AdvanceTurn(c, s, 0.0);
    IdleMeansNothing(s.watch);
    var a := Micro(c, s, 0.0);
    if s.win.idlePolls == 2 {
      s' := a;
    } else {
      assert a.point.SendHead?;
      AdvanceTurn(c, a, 0.0);
      var b := Micro(c, a, 0.0);
      assert b.point.WaitHead?;
      AdvanceTurn(c, b, 0.0);
      s' := Micro(c, b, 0.0);
    }
  }

  lemma ThreeIdles(c: Config, s2: Streamer) returns (s: Streamer)
    requires c == SMALL_BUFFER
    requires s2.point.AtRead? && s2.job == TWO_LINES && s2.ctl == Control(false, false, 1, 2, 0.0)
             && s2.win == Window(8, [8], 0, 0, 0) && s2.watch == Init(TWO_LINES, 0.0).watch && s2.pending == []
    ensures s == Step(c, s2, Wake(0.0, Done([IdleReport(), IdleReport(), IdleReport()])))
    ensures s.point.AtWrite? && s.job == TWO_LINES && s.ctl == s2.ctl
  {
    hide Advance;
    var three := [IdleReport(), IdleReport(), IdleReport()];
    var a := Continue(c, s2, 0.0, Done(three));
    assert three[1..] == [IdleReport(), IdleReport()] && three[1..][1..] == [IdleReport()];
    var b := OneIdle(c, a);
    var d := OneIdle(c, b);
    s := OneIdle(c, d);
    AdvanceTurn(c, s, 0.0);
  }
}
