/** Keeping the serial port: the monitor loop's ticks, the attempts to open that they wait for, and the
    I/O failures and late opens that come between. */
module Reconnect {
  import opened Options

  const PORT_SETTLE_SECONDS := 2.0
  const BOOT_WINDOW_SECONDS := 3.0
  const BOOT_RETRY_INTERVAL := 1.0

  datatype PortConfig = PortConfig(autoDetect: bool, reconnectInterval: real)

  /** Where the monitor's attempt stands: the worker thread is opening the port, or has opened it and
      the await has not returned yet. */
  datatype Attempt = NoAttempt | Opening | OpenDone

  /** `nodes` are the device paths that exist during a tick, `candidates` the detected ports, newest
      first. An open finishes in its thread, and later the await returns; or it fails or times out.
      A late open is one that finished after its tick had given up on it. */
  datatype LinkEvent =
    | MonitorTick(now: real, nodes: set<string>, candidates: seq<string>)
    | OpenFinishes(now: real)
    | OpenReturns(now: real)
    | OpenGivesUp(now: real)
    | IoFailure(now: real)
    | LateOpen(now: real)
    | Shutdown(now: real)

  datatype Link = Link(
    fdOpen: bool,
    connected: bool,
    port: string,
    firstSeen: Option<real>,
    openedAt: real,
    nextAttempt: real,
    attempt: Attempt,
    shuttingDown: bool)

  function NewLink(port: string): Link {
    Link(false, false, port, None, 0.0, 0.0, NoAttempt, false)
  }

  // ----- The specification -----------------------------------------------------------------

  function Closed(l: Link): Link {
    l.(fdOpen := false, connected := false)
  }

  /** Give up a descriptor whose node is gone or that was marked disconnected. */
  function Released(l: Link, nodes: set<string>): Link {
    if l.fdOpen && (l.port !in nodes || !l.connected) then Closed(l) else l
  }

  function Rescanned(c: PortConfig, l: Link, candidates: seq<string>): Link {
    if c.autoDetect && candidates != [] && candidates[0] != l.port
    then l.(port := candidates[0], firstSeen := None) else l
  }

  /** The node is there, has settled, and the next attempt is due. */
  predicate Due(l: Link, now: real, nodes: set<string>) {
    l.port in nodes && l.firstSeen.Some? && now - l.firstSeen.value >= PORT_SETTLE_SECONDS && now >= l.nextAttempt
  }

  function Sought(c: PortConfig, l: Link, now: real, nodes: set<string>, candidates: seq<string>): Link {
    Rescanned(c, Released(l, nodes), candidates)
  }

  /** The monitor is not waiting for an open, and goes on. */
  predicate Ticks(l: Link, e: LinkEvent) {
    e.MonitorTick? && !l.shuttingDown && l.attempt.NoAttempt?
  }

  /** Whether a tick tries to open the port. */
  predicate Tries(c: PortConfig, l: Link, e: LinkEvent) {
    Ticks(l, e) && !Released(l, e.nodes).connected
    && Due(Sought(c, l, e.now, e.nodes, e.candidates), e.now, e.nodes)
  }

  function AfterTick(c: PortConfig, l: Link, now: real, nodes: set<string>, candidates: seq<string>): Link {
    if Released(l, nodes).connected then Released(l, nodes)
    else
      var s := Sought(c, l, now, nodes, candidates);
      if s.port !in nodes then s.(firstSeen := None)
      else if s.firstSeen.None? then s.(firstSeen := Some(now))
      else if !Due(s, now, nodes) then s
      else s.(nextAttempt := now + c.reconnectInterval, attempt := Opening)
  }

  /** The next attempt comes soon when the failure falls into the controller's boot. */
  function AfterFailure(c: PortConfig, l: Link, now: real): Link {
    if !l.fdOpen then l
    else
      var booting := 0.0 <= now - l.openedAt < BOOT_WINDOW_SECONDS;
      Closed(l).(nextAttempt := now + if booting then BOOT_RETRY_INTERVAL else c.reconnectInterval)
  }

  function LinkStep(c: PortConfig, l: Link, e: LinkEvent): Link {
    match e
    case MonitorTick(now, nodes, candidates) => if Ticks(l, e) then AfterTick(c, l, now, nodes, candidates) else l
    case OpenFinishes(now) =>
      if l.attempt.Opening? then l.(fdOpen := true, openedAt := now, attempt := OpenDone) else l
    case OpenReturns(_) => if l.attempt.OpenDone? then l.(connected := true, attempt := NoAttempt) else l
    case OpenGivesUp(_) => if l.attempt.Opening? then l.(attempt := NoAttempt) else l
    case IoFailure(now) => AfterFailure(c, l, now)
    case LateOpen(now) => l.(fdOpen := true, openedAt := now)
    case Shutdown(_) => Closed(l).(shuttingDown := true)
  }

  /** The link after a sequence of events. */
  function After(c: PortConfig, l: Link, es: seq<LinkEvent>): Link
    decreases |es|
  {
    if es == [] then l else LinkStep(c, After(c, l, es[..|es| - 1]), es[|es| - 1])
  }

  // ----- The program -----------------------------------------------------------------------

  class SerialPort {
    const cfg: PortConfig
    var fdOpen: bool
    var connected: bool
    var port: string
    var portFirstSeen: Option<real>
    var openedAt: real
    var nextAttempt: real
    var attempt: Attempt
    var shuttingDown: bool

    ghost function Abs(): Link
      reads this
    {
      Link(fdOpen, connected, port, portFirstSeen, openedAt, nextAttempt, attempt, shuttingDown)
    }

    constructor (cfg: PortConfig, port: string)
      ensures this.cfg == cfg && Abs() == NewLink(port)
    {
      this.cfg, this.port := cfg, port;
      fdOpen, connected, portFirstSeen, openedAt, nextAttempt := false, false, None, 0.0, 0.0;
      attempt, shuttingDown := NoAttempt, false;
    }

    method CloseImmediately()
      modifies this
      ensures Abs() == Closed(old(Abs()))
    {
      fdOpen := false;
      connected := false;
    }

    method NoteIoFailure(now: real)
      modifies `nextAttempt
      ensures nextAttempt == now + if 0.0 <= now - openedAt < BOOT_WINDOW_SECONDS then BOOT_RETRY_INTERVAL
                                   else cfg.reconnectInterval
    {
      var sinceOpen := now - openedAt;
      if 0.0 <= sinceOpen < BOOT_WINDOW_SECONDS {
        nextAttempt := now + BOOT_RETRY_INTERVAL;
      } else {
        nextAttempt := now + cfg.reconnectInterval;
      }
    }

    method RescanPort(candidates: seq<string>)
      modifies this
      ensures Abs() == Rescanned(cfg, old(Abs()), candidates)
    {
      if !cfg.autoDetect { return; }
      if candidates == [] { return; }
      var newest := candidates[0];
      if newest != port {
        port := newest;
        portFirstSeen := None;
      }
    }

    /** One pass of the monitor loop, to its sleep or to the await of an open. When the link is down, or
        its node gone, and ports are detected automatically, the newest one is taken. */
    method Tick(now: real, nodes: set<string>, candidates: seq<string>)
      modifies this
      ensures Abs() == AfterTick(cfg, old(Abs()), now, nodes, candidates)
      ensures port == if (!old(connected) || (old(fdOpen) && old(port) !in nodes)) && cfg.autoDetect && candidates != []
                      then candidates[0] else old(port)
    {
      if fdOpen {
        if port !in nodes {
          CloseImmediately();
        } else if !connected {
          CloseImmediately();
        }
      }
      if !connected {
        RescanPort(candidates);
        if port !in nodes {
          portFirstSeen := None;
        } else if portFirstSeen.None? {
          portFirstSeen := Some(now);
        } else if now - portFirstSeen.value >= PORT_SETTLE_SECONDS && now >= nextAttempt {
          nextAttempt := now + cfg.reconnectInterval;
          attempt := Opening;
        }
      }
    }

    /** One pass of the loop, or what happens while it sleeps or waits for an open. */
    method Meet(e: LinkEvent)
      modifies this
      ensures Abs() == LinkStep(cfg, old(Abs()), e)
    {
      hide AfterTick;
      match e {
        case MonitorTick(now, nodes, candidates) =>
          if !shuttingDown && attempt.NoAttempt? { Tick(now, nodes, candidates); }
        case OpenFinishes(now) =>
          if attempt.Opening? { fdOpen, openedAt, attempt := true, now, OpenDone; }
        case OpenReturns(_) =>
          if attempt.OpenDone? { connected, attempt := true, NoAttempt; }
        case OpenGivesUp(_) =>
          if attempt.Opening? { attempt := NoAttempt; }
        case IoFailure(now) =>
          if fdOpen {
            NoteIoFailure(now);
            CloseImmediately();
          }
        case LateOpen(now) =>
          fdOpen := true;
          openedAt := now;
        case Shutdown(_) =>
          shuttingDown := true;
          CloseImmediately();
      }
    }

    /** run_reconnect_loop. */
    method RunReconnectLoop(events: seq<LinkEvent>)
      modifies this
      ensures Abs() == After(cfg, old(Abs()), events)
    {
      hide LinkStep;
      ghost var start := Abs();
      var i := 0;
      while i < |events|
        invariant 0 <= i <= |events|
        invariant Abs() == After(cfg, start, events[..i])
      {
        assert events[..i + 1][..i] == events[..i];
        Meet(events[i]);
        i := i + 1;
      }
      assert events[..|events|] == events;
    }
  }

  // ----- Every run -------------------------------------------------------------------------

  /** Marked connected without a descriptor. */
  predicate Hollow(l: Link) {
    l.connected && !l.fdOpen
  }

  /** One tick: the port it ended with, whether its node existed, whether the tick looked (a hollow
      link is not looked after), whether it found the link down, and whether it tried to open the port. */
  datatype Sight = Sight(now: real, port: string, present: bool, looked: bool, down: bool, tried: bool)

  function SightOf(c: PortConfig, l: Link, e: LinkEvent): Sight
    requires Ticks(l, e)
  {
    var l' := LinkStep(c, l, e);
    var down := !l.connected || (l.fdOpen && l.port !in e.nodes);
    Sight(e.now, l'.port, l'.port in e.nodes, !Hollow(l), down, Tries(c, l, e))
  }

  function Sights(c: PortConfig, l: Link, es: seq<LinkEvent>): seq<Sight>
    decreases |es|
  {
    if es == [] then []
    else
      var before := es[..|es| - 1];
      var e := es[|es| - 1];
      Sights(c, l, before) + (if Ticks(After(c, l, before), e) then [SightOf(c, After(c, l, before), e)] else [])
  }

  /** From sight j to sight k the same port was there every time that the tick looked. */
  predicate Steady(s: seq<Sight>, j: int, k: int, port: string) {
    0 <= j <= k <= |s| && forall i :: j <= i < k ==> s[i].port == port && (s[i].present || !s[i].looked)
  }

  ghost predicate SeenSince(s: seq<Sight>, j: int, l: Link) {
    && l.firstSeen.Some? && 0 <= j < |s| && s[j].now == l.firstSeen.value
    && Sees(s[j]) && Steady(s, j, |s|, l.port)
  }

  predicate Sees(t: Sight) {
    t.looked && t.present
  }

  /** Tried only after the port had been there for the settling time, at every tick. */
  ghost predicate Settled(s: seq<Sight>, k: int)
    requires 0 <= k < |s|
  {
    exists j :: Steady(s, j, k + 1, s[k].port) && j <= k && Sees(s[j]) && s[k].now - s[j].now >= 2.0
  }

  ghost predicate Watching(l: Link, s: seq<Sight>) {
    && (l.firstSeen.Some? && !l.shuttingDown ==> exists j :: SeenSince(s, j, l))
    && forall k :: 0 <= k < |s| && s[k].tried ==> Settled(s, k)
  }

  lemma SteadyGrows(s: seq<Sight>, j: int, port: string, t: Sight)
    requires Steady(s, j, |s|, port) && t.port == port && (t.present || !t.looked)
    ensures Steady(s + [t], j, |s| + 1, port)
  {
  }

  lemma SettledStays(s: seq<Sight>, t: Sight)
    ensures forall k :: 0 <= k < |s| && Settled(s, k) ==> Settled(s + [t], k)
  {
    forall k | 0 <= k < |s| && Settled(s, k) ensures Settled(s + [t], k) {
      var j :| Steady(s, j, k + 1, s[k].port) && j <= k && Sees(s[j]) && s[k].now - s[j].now >= 2.0;
      var s' := s + [t];
      assert s'[k] == s[k] && s'[j] == s[j];
      assert Steady(s', j, k + 1, s'[k].port) && s'[k].now - s'[j].now >= 2.0;
    }
  }

  lemma TickWatches(c: PortConfig, l: Link, s: seq<Sight>, e: LinkEvent)
    requires Ticks(l, e) && Watching(l, s)
    ensures Watching(LinkStep(c, l, e), s + [SightOf(c, l, e)])
  {
    var t := SightOf(c, l, e);
    var l' := LinkStep(c, l, e);
    var s' := s + [t];
    SettledStays(s, t);
    if l.firstSeen.Some? {
      var j :| SeenSince(s, j, l);
      if l'.firstSeen == l.firstSeen && l'.port == l.port {
        SteadyGrows(s, j, l.port, t);
        assert SeenSince(s', j, l');
      } else if l'.firstSeen.Some? {
        assert SeenSince(s', |s|, l');
      }
      if t.tried { assert Steady(s', j, |s| + 1, t.port); }
    } else if l'.firstSeen.Some? {
      assert SeenSince(s', |s|, l');
    }
  }

  lemma {:induction false} EveryRunWatches(c: PortConfig, l: Link, es: seq<LinkEvent>)
    requires Watching(l, [])
    ensures Watching(After(c, l, es), Sights(c, l, es))
    decreases |es|
  {
    if es == [] {
    } else {
      var before, e := es[..|es| - 1], es[|es| - 1];
      EveryRunWatches(c, l, before);
      var l1, s := After(c, l, before), Sights(c, l, before);
      if Ticks(l1, e) {
        TickWatches(c, l1, s, e);
      } else {
        OtherWatches(c, l1, s, e);
        assert s + [] == s;
      }
    }
  }

  lemma OtherWatches(c: PortConfig, l: Link, s: seq<Sight>, e: LinkEvent)
    requires !Ticks(l, e) && Watching(l, s)
    ensures Watching(LinkStep(c, l, e), s)
  {
    var l' := LinkStep(c, l, e);
    if l'.firstSeen.Some? && !l'.shuttingDown {
      var j :| SeenSince(s, j, l);
      assert SeenSince(s, j, l');
    }
  }

  /** A tick tries to open the port only if every tick of the last two seconds that looked, and
      one at least that long ago, saw that same port's node. */
  lemma TriesAreSettled(c: PortConfig, port: string, es: seq<LinkEvent>, k: nat)
    requires var s := Sights(c, NewLink(port), es); k < |s| && s[k].tried
    ensures Settled(Sights(c, NewLink(port), es), k)
  {
    EveryRunWatches(c, NewLink(port), es);
  }

  // ----- Pacing ----------------------------------------------------------------------------

  /** The clock never goes back. */
  predicate Clocked(es: seq<LinkEvent>) {
    forall i, j :: 0 <= i < j < |es| ==> es[i].now <= es[j].now
  }

  function MinGap(c: PortConfig): real {
    if 1.0 < c.reconnectInterval then 1.0 else c.reconnectInterval
  }

  ghost predicate Paced(c: PortConfig, l: Link, s: seq<Sight>) {
    && (forall i :: 0 <= i < |s| && s[i].tried ==> l.nextAttempt >= s[i].now + MinGap(c))
    && (forall i, j :: 0 <= i < j < |s| && s[i].tried && s[j].tried ==> s[j].now - s[i].now >= MinGap(c))
  }

  lemma {:induction false} SightTimes(c: PortConfig, l: Link, es: seq<LinkEvent>, now: real)
    requires forall e :: e in es ==> e.now <= now
    ensures forall t :: t in Sights(c, l, es) ==> t.now <= now
    decreases |es|
  {
    if es == [] {
    } else {
      SightTimes(c, l, es[..|es| - 1], now);
    }
  }

  lemma {:induction false} EveryRunIsPaced(c: PortConfig, l: Link, es: seq<LinkEvent>)
    requires Clocked(es)
    ensures Paced(c, After(c, l, es), Sights(c, l, es))
    decreases |es|
  {
    if es == [] {
    } else {
      var before, e := es[..|es| - 1], es[|es| - 1];
      EveryRunIsPaced(c, l, before);
      SightTimes(c, l, before, e.now);
      PacedStep(c, After(c, l, before), Sights(c, l, before), e);
    }
  }

  lemma PacedStep(c: PortConfig, l: Link, s: seq<Sight>, e: LinkEvent)
    requires Paced(c, l, s) && forall t :: t in s ==> t.now <= e.now
    ensures Paced(c, LinkStep(c, l, e), s + if Ticks(l, e) then [SightOf(c, l, e)] else [])
  {
    assert forall i :: 0 <= i < |s| ==> s[i] in s;
  }

  /** Attempts to open keep their distance: the boot retry interval, or the reconnect interval
      where that is shorter. */
  lemma TriesAreApart(c: PortConfig, l: Link, es: seq<LinkEvent>, i: nat, j: nat)
    requires Clocked(es) && i < j < |Sights(c, l, es)|
    requires Sights(c, l, es)[i].tried && Sights(c, l, es)[j].tried
    ensures Sights(c, l, es)[j].now - Sights(c, l, es)[i].now >= MinGap(c)
  {
    EveryRunIsPaced(c, l, es);
  }

  // ----- When an attempt is made -----------------------------------------------------------

  /** When the last open finished, by an attempt or late. */
  function LastOpen(c: PortConfig, l: Link, es: seq<LinkEvent>): real
    decreases |es|
  {
    if es == [] then 0.0
    else
      var before, e := es[..|es| - 1], es[|es| - 1];
      if e.LateOpen? || (e.OpenFinishes? && After(c, l, before).attempt.Opening?) then e.now
      else LastOpen(c, l, before)
  }

  /** Until when the newest attempt, or the newest failure of an open port, puts the next one off: a
      second after a failure within three seconds of the open, else the reconnect interval. */
  function PutOff(c: PortConfig, l: Link, es: seq<LinkEvent>): real
    decreases |es|
  {
    if es == [] then 0.0
    else
      var before, e := es[..|es| - 1], es[|es| - 1];
      if Tries(c, After(c, l, before), e) then e.now + c.reconnectInterval
      else if e.IoFailure? && After(c, l, before).fdOpen then
        e.now + if 0.0 <= e.now - LastOpen(c, l, before) < 3.0 then 1.0 else c.reconnectInterval
      else PutOff(c, l, before)
  }

  lemma {:induction false} PutOffShows(c: PortConfig, port: string, es: seq<LinkEvent>)
    ensures var l := After(c, NewLink(port), es);
            l.nextAttempt == PutOff(c, NewLink(port), es) && l.openedAt == LastOpen(c, NewLink(port), es)
    decreases |es|
  {
    hide LinkStep, Tries;
    if es == [] {
    } else {
      PutOffShows(c, port, es[..|es| - 1]);
      StepPutsOff(c, After(c, NewLink(port), es[..|es| - 1]), es[|es| - 1]);
    }
  }

  lemma StepPutsOff(c: PortConfig, l: Link, e: LinkEvent)
    ensures LinkStep(c, l, e).openedAt
         == if e.LateOpen? || (e.OpenFinishes? && l.attempt.Opening?) then e.now else l.openedAt
    ensures LinkStep(c, l, e).nextAttempt
         == if Tries(c, l, e) then e.now + c.reconnectInterval
            else if e.IoFailure? && l.fdOpen then
              e.now + if 0.0 <= e.now - l.openedAt < 3.0 then 1.0 else c.reconnectInterval
            else l.nextAttempt
  {
  }

  /** A port that a tick has seen, and no looking tick has missed since, is being waited for, from that
      tick on at the latest. */
  ghost predicate Awaited(l: Link, s: seq<Sight>, now: real) {
    && (l.connected || !l.attempt.NoAttempt? ==> l.firstSeen.Some?)
    && (l.firstSeen.Some? ==> l.firstSeen.value <= now)
    && (s != [] ==> s[|s| - 1].port == l.port)
    && forall j :: 0 <= j < |s| && Sees(s[j]) && Steady(s, j, |s|, l.port) ==>
         l.firstSeen.Some? && l.firstSeen.value <= s[j].now
  }

  lemma TickAwaits(c: PortConfig, l: Link, s: seq<Sight>, now: real, e: LinkEvent)
    requires Ticks(l, e) && Awaited(l, s, now) && now <= e.now
    ensures Awaited(LinkStep(c, l, e), s + [SightOf(c, l, e)], e.now)
  {
    var t, l' := SightOf(c, l, e), LinkStep(c, l, e);
    var s' := s + [t];
    forall j | 0 <= j < |s'| && Sees(s'[j]) && Steady(s', j, |s'|, l'.port)
      ensures l'.firstSeen.Some? && l'.firstSeen.value <= s'[j].now
    {
      if j < |s| {
        assert s'[j] == s[j] && s'[|s|] == t;
        assert Steady(s, j, |s|, l'.port) by { assert forall i :: j <= i < |s| ==> s[i] == s'[i]; }
        assert s[|s| - 1].port == l'.port;
      }
    }
  }

  lemma OtherAwaits(c: PortConfig, l: Link, s: seq<Sight>, now: real, e: LinkEvent)
    requires !Ticks(l, e) && Awaited(l, s, now) && now <= e.now
    ensures Awaited(LinkStep(c, l, e), s, e.now)
  {
  }

  lemma {:induction false} EveryRunAwaits(c: PortConfig, port: string, es: seq<LinkEvent>, now: real)
    requires Clocked(es) && forall e :: e in es ==> e.now <= now
    ensures Awaited(After(c, NewLink(port), es), Sights(c, NewLink(port), es), now)
    decreases |es|
  {
    hide LinkStep, Awaited, SightOf;
    if es == [] {
      NothingAwaited(port, now);
    } else {
      var before, e := es[..|es| - 1], es[|es| - 1];
      assert e in es;
      EveryRunAwaits(c, port, before, e.now);
      var l, s := After(c, NewLink(port), before), Sights(c, NewLink(port), before);
      if Ticks(l, e) {
        TickAwaits(c, l, s, e.now, e);
      } else {
        OtherAwaits(c, l, s, e.now, e);
        assert s + [] == s;
      }
      AwaitedLater(After(c, NewLink(port), es), Sights(c, NewLink(port), es), e.now, now);
    }
  }

  lemma NothingAwaited(port: string, now: real)
    ensures Awaited(NewLink(port), [], now)
  {
  }

  lemma AwaitedLater(l: Link, s: seq<Sight>, now: real, later: real)
    requires Awaited(l, s, now) && now <= later
    ensures Awaited(l, s, later)
  {
  }

  /** A tick that finds the link down tries to open the port exactly when its node is there, a tick at
      least two seconds ago saw it and no looking one has missed it since, and the time until which the
      last attempt or failure puts the next one off is over. */
  lemma TriesExactly(c: PortConfig, port: string, es: seq<LinkEvent>, e: LinkEvent)
    requires Clocked(es + [e]) && Ticks(After(c, NewLink(port), es), e)
    ensures var s := Sights(c, NewLink(port), es + [e]);
            && s != [] && var t := s[|s| - 1];
               t.tried <==> t.down && t.present && Settled(s, |s| - 1) && e.now >= PutOff(c, NewLink(port), es)
  {
    hide LinkStep, Sights, After, PutOff, Awaited, Settled, Watching;
    var l, s := After(c, NewLink(port), es), Sights(c, NewLink(port), es);
    ClockedBefore(es, e);
    EveryRunAwaits(c, port, es, e.now);
    NewWatches(port);
    EveryRunWatches(c, NewLink(port), es);
    SightsOne(c, NewLink(port), es, e);
    PutOffShows(c, port, es);
    TryShows(c, l, s, e);
  }

  lemma ClockedBefore(es: seq<LinkEvent>, e: LinkEvent)
    requires Clocked(es + [e])
    ensures Clocked(es) && forall f :: f in es ==> f.now <= e.now
  {
    var all := es + [e];
    assert all[|es|] == e && forall i :: 0 <= i < |es| ==> all[i] == es[i];
  }

  lemma NewWatches(port: string)
    ensures Watching(NewLink(port), [])
  {
  }

  lemma TryShows(c: PortConfig, l: Link, s: seq<Sight>, e: LinkEvent)
    requires Ticks(l, e) && Awaited(l, s, e.now) && Watching(l, s)
    ensures var t := SightOf(c, l, e); var s' := s + [t];
            t.tried <==> t.down && t.present && Settled(s', |s|) && e.now >= l.nextAttempt
  {
    var t := SightOf(c, l, e);
    var s' := s + [t];
    TickWatches(c, l, s, e);
    if t.down && t.present && Settled(s', |s|) && e.now >= l.nextAttempt {
      var j :| Steady(s', j, |s| + 1, s'[|s|].port) && j <= |s| && Sees(s'[j]) && t.now - s'[j].now >= 2.0;
      assert s'[|s|] == t && s'[j] == s[j];
      assert Steady(s, j, |s|, t.port) by { assert forall i :: j <= i < |s| ==> s[i] == s'[i]; }
      assert s[|s| - 1] == s'[|s| - 1];
    }
  }

  // ----- Descriptors -----------------------------------------------------------------------

  /** After a tick's release step, and so at its end, a descriptor is held only on a link that is up,
      for a node that is there, whatever failure or late open came before. */
  lemma NoStaleDescriptor(c: PortConfig, l: Link, es: seq<LinkEvent>, e: LinkEvent)
    requires Ticks(After(c, l, es), e)
    ensures var l1 := After(c, l, es);
            && (Released(l1, e.nodes).fdOpen ==> Released(l1, e.nodes).connected && l1.port in e.nodes)
            && (LinkStep(c, l1, e).fdOpen ==> LinkStep(c, l1, e).connected && l1.port in e.nodes)
  {
  }

  /** The port was opened and closed again, and the open's await has yet to return. */
  predicate ClosedBehind(l: Link) {
    l.attempt.OpenDone? && !l.fdOpen
  }

  predicate Closes(e: LinkEvent) {
    e.IoFailure? || e.Shutdown?
  }

  /** An attempt is only made, and waited for, on a link that is down. */
  predicate DownWhileOpening(l: Link) {
    !l.attempt.NoAttempt? ==> !l.connected
  }

  lemma {:induction false} StaysDownWhileOpening(c: PortConfig, port: string, es: seq<LinkEvent>)
    ensures DownWhileOpening(After(c, NewLink(port), es))
    decreases |es|
  {
    if es == [] {
    } else {
      StaysDownWhileOpening(c, port, es[..|es| - 1]);
    }
  }

  lemma HollowStep(c: PortConfig, l: Link, e: LinkEvent)
    requires DownWhileOpening(l)
    ensures Hollow(LinkStep(c, l, e))
            <==> (e.OpenReturns? && ClosedBehind(l)) || (Hollow(l) && !e.LateOpen? && !e.Shutdown?)
    ensures ClosedBehind(LinkStep(c, l, e))
            <==> || (Closes(e) && l.attempt.OpenDone? && l.fdOpen)
                 || (ClosedBehind(l) && !e.OpenReturns? && !e.LateOpen?)
    ensures Hollow(l) ==> !Tries(c, l, e)
  {
  }

  /** At position j the await returned, and since then neither a late open nor a shutdown came. */
  ghost predicate HollowSince(c: PortConfig, port: string, es: seq<LinkEvent>, j: int) {
    && 0 <= j < |es| && es[j].OpenReturns? && ClosedBehind(After(c, NewLink(port), es[..j]))
    && forall k :: j < k < |es| ==> !es[k].LateOpen? && !es[k].Shutdown?
  }

  /** At position i the port was closed between open and return, and neither came since. */
  ghost predicate ClosedBehindSince(c: PortConfig, port: string, es: seq<LinkEvent>, i: int) {
    && 0 <= i < |es| && Closes(es[i])
    && After(c, NewLink(port), es[..i]).attempt.OpenDone? && After(c, NewLink(port), es[..i]).fdOpen
    && forall k :: i < k < |es| ==> !es[k].OpenReturns? && !es[k].LateOpen?
  }

  lemma {:induction false} ClosedBehindExactly(c: PortConfig, port: string, es: seq<LinkEvent>)
    ensures ClosedBehind(After(c, NewLink(port), es)) <==> exists i :: ClosedBehindSince(c, port, es, i)
    decreases |es|
  {
    hide LinkStep;
    if es == [] {
    } else {
      var n := |es| - 1;
      var before := es[..n];
      ClosedBehindExactly(c, port, before);
      StaysDownWhileOpening(c, port, before);
      HollowStep(c, After(c, NewLink(port), before), es[n]);
      assert forall i :: 0 <= i <= n ==> before[..i] == es[..i];
      if i :| ClosedBehindSince(c, port, before, i) && !es[n].OpenReturns? && !es[n].LateOpen? {
        assert ClosedBehindSince(c, port, es, i);
      }
      if i :| ClosedBehindSince(c, port, es, i) && i < n { assert ClosedBehindSince(c, port, before, i); }
      if Closes(es[n]) && After(c, NewLink(port), before).attempt.OpenDone? && After(c, NewLink(port), before).fdOpen {
        assert ClosedBehindSince(c, port, es, n);
      }
    }
  }

  /** In every run: the link is marked connected without a descriptor exactly when an open's await
      returned after a failure or shutdown had closed what it opened, and neither a late open nor a
      shutdown came since. Such a link is never tried again (HollowStep). */
  lemma {:induction false} HollowExactly(c: PortConfig, port: string, es: seq<LinkEvent>)
    ensures Hollow(After(c, NewLink(port), es)) <==> exists j :: HollowSince(c, port, es, j)
    decreases |es|
  {
    hide LinkStep, ClosedBehind;
    if es == [] {
    } else {
      var n := |es| - 1;
      var before := es[..n];
      HollowExactly(c, port, before);
      StaysDownWhileOpening(c, port, before);
      HollowStep(c, After(c, NewLink(port), before), es[n]);
      assert forall j :: 0 <= j <= n ==> before[..j] == es[..j];
      if j :| HollowSince(c, port, before, j) && !es[n].LateOpen? && !es[n].Shutdown? {
        assert HollowSince(c, port, es, j);
      }
      if j :| HollowSince(c, port, es, j) && j < n { assert HollowSince(c, port, before, j); }
      if es[n].OpenReturns? && ClosedBehind(After(c, NewLink(port), before)) { assert HollowSince(c, port, es, n); }
    }
  }

  /** It happens: a write fails between the open and its return. */
  lemma HollowHappens(c: PortConfig)
    requires !c.autoDetect
    ensures var seen := MonitorTick(0.0, {"p"}, []); var tries := MonitorTick(2.0, {"p"}, []);
            Hollow(After(c, NewLink("p"), [seen, tries, OpenFinishes(2.1), IoFailure(2.2), OpenReturns(2.3)]))
  {
    var seen, tries := MonitorTick(0.0, {"p"}, []), MonitorTick(2.0, {"p"}, []);
    var es := [seen, tries, OpenFinishes(2.1), IoFailure(2.2), OpenReturns(2.3)];
    assert es[..4][..3] == es[..3] && es[..3][..2] == es[..2] && es[..2][..1] == es[..1] && es[..1][..0] == [];
    var l1 := LinkStep(c, NewLink("p"), seen);
    assert After(c, NewLink("p"), es[..1]) == l1 && l1.firstSeen == Some(0.0);
    var l2 := LinkStep(c, l1, tries);
    assert After(c, NewLink("p"), es[..2]) == l2 && l2.attempt.Opening?;
    var l3 := LinkStep(c, l2, es[2]);
    assert After(c, NewLink("p"), es[..3]) == l3;
    var l4 := LinkStep(c, l3, es[3]);
    assert After(c, NewLink("p"), es[..4]) == l4;
  }

  lemma AfterOne(c: PortConfig, l: Link, es: seq<LinkEvent>, e: LinkEvent)
    ensures After(c, l, es + [e]) == LinkStep(c, After(c, l, es), e)
  {
    hide LinkStep;
    assert (es + [e])[..|es|] == es;
  }

  lemma SightsOne(c: PortConfig, l: Link, es: seq<LinkEvent>, e: LinkEvent)
    ensures Sights(c, l, es + [e])
         == Sights(c, l, es) + if Ticks(After(c, l, es), e) then [SightOf(c, After(c, l, es), e)] else []
  {
    hide LinkStep, SightOf, After;
    assert (es + [e])[..|es|] == es;
  }

  lemma FourEvents(c: PortConfig, l: Link, es: seq<LinkEvent>, a: LinkEvent, b: LinkEvent, d: LinkEvent, e: LinkEvent)
    ensures After(c, l, es + [a, b, d, e])
         == LinkStep(c, LinkStep(c, LinkStep(c, LinkStep(c, After(c, l, es), a), b), d), e)
  {
    hide LinkStep, After;
    AfterOne(c, l, es, a);
    AfterOne(c, l, es + [a], b);
    AfterOne(c, l, es + [a] + [b], d);
    AfterOne(c, l, es + [a] + [b] + [d], e);
    assert es + [a] + [b] + [d] + [e] == es + [a, b, d, e];
  }

  const WATCHED := PortConfig(false, 5.0)
  const HERE: set<string> := {"p"}

  /** A second attempt's port fails before its await has returned. */
  const MADE_HOLLOW: seq<LinkEvent> :=
    [MonitorTick(0.0, HERE, []), MonitorTick(2.0, HERE, []), OpenGivesUp(6.5), MonitorTick(7.0, HERE, [])]
    + [OpenFinishes(7.1), IoFailure(7.2), OpenReturns(7.3), IoFailure(7.4)]

  lemma MadeHollow()
    ensures After(WATCHED, NewLink("p"), MADE_HOLLOW)
         == Link(false, true, "p", Some(0.0), 7.1, 8.2, NoAttempt, false)
  {
    hide After;
    var l := NewLink("p");
    var a := [MonitorTick(0.0, HERE, []), MonitorTick(2.0, HERE, []), OpenGivesUp(6.5), MonitorTick(7.0, HERE, [])];
    FourEvents(WATCHED, l, [], a[0], a[1], a[2], a[3]);
    assert [] + a == a;
    assert After(WATCHED, l, []) == l by { NoEvents(WATCHED, l); }
    assert After(WATCHED, l, a) == Link(false, false, "p", Some(0.0), 0.0, 12.0, Opening, false);
    FourEvents(WATCHED, l, a, OpenFinishes(7.1), IoFailure(7.2), OpenReturns(7.3), IoFailure(7.4));
  }

  lemma NoEvents(c: PortConfig, l: Link)
    ensures After(c, l, []) == l
  {
  }

  /** A hollow link does not see its port go: once a late open and a failure have ended that state, the
      port is tried though it was not there two seconds before. */
  lemma HollowUnsettles()
    ensures var gone := MonitorTick(8.3, {}, []);
            var es := MADE_HOLLOW + [gone] + [LateOpen(8.5)] + [IoFailure(9.1)] + [MonitorTick(10.1, HERE, [])];
            var s := Sights(WATCHED, NewLink("p"), es);
            && |s| >= 2 && s[|s| - 1].tried && s[|s| - 1].port == s[|s| - 2].port && !s[|s| - 2].present
            && s[|s| - 1].now - s[|s| - 2].now < 2.0
  {
    hide After, Sights;
    var c, l := WATCHED, NewLink("p");
    var gone, again := MonitorTick(8.3, {}, []), MonitorTick(10.1, HERE, []);
    MadeHollow();
    var g := MADE_HOLLOW + [gone];
    AfterOne(c, l, MADE_HOLLOW, gone);
    SightsOne(c, l, MADE_HOLLOW, gone);
    AfterOne(c, l, g, LateOpen(8.5));
    SightsOne(c, l, g, LateOpen(8.5));
    var h := g + [LateOpen(8.5)];
    AfterOne(c, l, h, IoFailure(9.1));
    SightsOne(c, l, h, IoFailure(9.1));
    SightsOne(c, l, h + [IoFailure(9.1)], again);
  }
}
