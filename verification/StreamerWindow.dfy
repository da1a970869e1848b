/** Character counting over every run: the window is the sum of the lines in flight, the lines
    in flight are the newest lines sent, and the window is respected. */
module StreamerWindow {
  import opened GrblMessages
  import opened StreamerModel

  function LengthsOf(lines: seq<string>): (ls: seq<nat>)
    ensures |ls| == |lines|
    ensures forall i :: 0 <= i < |lines| ==> ls[i] == LineBytes(lines[i])
  {
    seq(|lines|, i requires 0 <= i < |lines| => LineBytes(lines[i]))
  }

  /** The newest n of the first `sent` lines, as byte counts. */
  function NewestSent(lines: seq<string>, sent: nat, n: nat): seq<nat>
    requires n <= sent <= |lines|
  {
    LengthsOf(lines[sent - n .. sent])
  }

  predicate Fits(c: Config, lengths: seq<nat>) {
    Sum(lengths) <= c.rxSize || |lengths| <= 1
  }

  /** Program points of the send loop, and of the drain loops once there is something to wait for. */
  predicate PointOk(s: Streamer) {
    match s.point
    case AtResume(_) => Sending(s)
    case AtPoll(next) =>
      && (if next == ToCheck then Sending(s) else Sending(s) || s.win.lengths != [])
      && (next == ToSameRead ==> s.pending == [])
    case AtRead => (Sending(s) || s.win.lengths != []) && s.pending == []
    case AtWrite => Sending(s)
    case PollBeforeLine => Sending(s)
    case CheckCancel => Sending(s)
    case SendHead => Sending(s)
    case TrailHead => !Sending(s)
    case WaitHead => Sending(s) || s.win.lengths != []
    case TakeMessage => Sending(s) || s.win.lengths != []
    case _ => true
  }

  predicate InFlightOk(c: Config, lines: seq<string>, sent: nat, lengths: seq<nat>) {
    && |lengths| <= sent <= |lines|
    && lengths == NewestSent(lines, sent, |lengths|)
    && Fits(c, lengths)
  }

  /** The send loop's drain is entered, and gone on with, only while the next line does not fit. */
  predicate DrainOk(c: Config, s: Streamer) {
    && Sending(s)
    && (|| s.point.WaitHead? || s.point.TakeMessage? || s.point.AtRead?
        || (s.point.AtPoll? && s.point.next != ToCheck))
    ==> s.win.used + LineBytes(s.job.lines[s.ctl.sent]) > c.rxSize
  }

  predicate WindowOk(c: Config, s: Streamer) {
    && InFlightOk(c, s.job.lines, s.ctl.sent, s.win.lengths)
    && (Sending(s) ==> s.win.used == Sum(s.win.lengths))
    && PointOk(s) && DrainOk(c, s)
    && (s.point.AtWrite? ==> Fits(c, s.win.lengths + [LineBytes(s.job.lines[s.ctl.sent])]))
  }

  lemma {:induction false} SumAppend(a: seq<nat>, n: nat)
    ensures Sum(a + [n]) == Sum(a) + n
  {
    if a == [] {
    } else {
      assert (a + [n])[1..] == a[1..] + [n];
      SumAppend(a[1..], n);
    }
  }

  lemma DropOldest(c: Config, lines: seq<string>, sent: nat, lengths: seq<nat>)
    requires InFlightOk(c, lines, sent, lengths) && lengths != []
    ensures InFlightOk(c, lines, sent, lengths[1..])
    ensures Sum(lengths) == lengths[0] + Sum(lengths[1..])
  {
  }

  lemma NothingInFlight(c: Config, lines: seq<string>, sent: nat)
    requires sent <= |lines|
    ensures InFlightOk(c, lines, sent, [])
  {
  }

  /** The ways a message changes the window: not at all, drop the oldest, or clear and start. */
  lemma StatusShape(s: Streamer, r: StatusReport, now: real)
    ensures var s' := StatusInSend(s, r, now);
            && s'.job == s.job && s'.ctl == s.ctl
            && (|| (s'.win.lengths == s.win.lengths && s'.win.used == s.win.used
                    && (s'.point.SendHead? || s'.point.AtFailsafe? || s'.point.Finished?))
                || (s'.win.lengths == [] && s'.win.used == 0 && s'.point.AtWrite?))
  {
  }

  lemma StatusTrailShape(s: Streamer, r: StatusReport, now: real)
    ensures var s' := StatusInTrail(s, r, now);
            && s'.job == s.job && s'.ctl == s.ctl && s'.win.lengths == s.win.lengths
            && (s'.point.TrailHead? || s'.point.AtFailsafe? || s'.point.Finished?)
  {
  }

  lemma HandleShape(s: Streamer, m: Message, now: real)
    ensures var s' := Handle(s, m, now);
            && s'.job == s.job && s'.ctl == s.ctl
            && (s'.point.SendHead? ==> Sending(s)) && (s'.point.TrailHead? ==> !Sending(s))
            && (s'.point.AtWrite? ==> Sending(s) && s'.win.lengths == [] && s'.win.used == 0)
            && (s'.point.SendHead? || s'.point.TrailHead? || s'.point.AtWrite?
                || s'.point.AtFailsafe? || s'.point.Finished?)
            && (|| (s'.win.lengths == s.win.lengths && s'.win.used == s.win.used)
                || (s.win.lengths != [] && s'.win.lengths == s.win.lengths[1..]
                    && (Sending(s) ==> s'.win.used == s.win.used - s.win.lengths[0]))
                || (Sending(s) && s'.win.lengths == [] && s'.win.used == 0))
  {
    var h := Note(s, Heard(m, now));
    if m.Status? {
      if Sending(s) { StatusShape(h, m.report, now); } else { StatusTrailShape(h, m.report, now); }
    }
  }

  lemma HandleKeepsWindow(c: Config, s: Streamer, m: Message, now: real)
    requires WindowOk(c, s) && s.point.TakeMessage?
    ensures WindowOk(c, Handle(s, m, now))
  {
    HandleShape(s, m, now);
    NothingInFlight(c, s.job.lines, s.ctl.sent);
    if s.win.lengths != [] { DropOldest(c, s.job.lines, s.ctl.sent, s.win.lengths); }
  }

  lemma WaitKeepsWindow(c: Config, s: Streamer, now: real)
    requires WindowOk(c, s) && s.point.WaitHead?
    ensures WindowOk(c, WaitTurn(c, s, now))
  {
  }

  lemma MicroKeepsWindow(c: Config, s: Streamer, now: real)
    requires WindowOk(c, s) && !Suspended(s.point)
    ensures WindowOk(c, Micro(c, s, now))
  {
    hide Handle, WaitTurn, InFlightOk, PollDue, LineBytes;
    if s.point.TakeMessage? && s.pending != [] {
      HandleKeepsWindow(c, s.(pending := s.pending[1..]), s.pending[0], now);
    } else if s.point.WaitHead? {
      WaitKeepsWindow(c, s, now);
    } else if s.point.SendHead? {
      SumAppend(s.win.lengths, LineBytes(s.job.lines[s.ctl.sent]));
    }
  }

  lemma WrittenKeepsWindow(c: Config, s: Streamer)
    requires WindowOk(c, s) && s.point.AtWrite?
    ensures WindowOk(c, LineWritten(s))
  {
    var n := LineBytes(s.job.lines[s.ctl.sent]);
    SumAppend(s.win.lengths, n);
    var k := |s.win.lengths|;
    assert s.job.lines[s.ctl.sent - k .. s.ctl.sent + 1]
        == s.job.lines[s.ctl.sent - k .. s.ctl.sent] + [s.job.lines[s.ctl.sent]];
  }

  /** An await's completion that is not the end of a line's write leaves the window alone. */
  lemma ContinueShape(c: Config, s: Streamer, now: real, o: Outcome)
    requires !s.point.AtWrite? || !o.Done?
    ensures var s' := Continue(c, s, now, o);
            && s'.job == s.job && s'.ctl.sent == s.ctl.sent && s'.win == s.win
            && (s'.point.TakeMessage? || s'.pending == s.pending)
            && (|| s'.point == s.point || s'.point.AtFailsafe? || s'.point.Finished?
                || s'.point.NextLine?
                || (s.point.AtResume? && s'.point.PollBeforeLine?)
                || (s.point.AtPoll? && s'.point == AfterPoll(s.point.next))
                || (s.point.AtRead? && s'.point in [TakeMessage, AtPoll(ToSameRead)])
                || (s.point.AtRead? && s'.point == if Sending(s) then SendHead else TrailHead))
  {
  }

  lemma ContinueKeepsWindow(c: Config, s: Streamer, now: real, o: Outcome)
    requires WindowOk(c, s)
    ensures WindowOk(c, Continue(c, s, now, o))
  {
    if s.point.AtWrite? && o.Done? {
      WrittenKeepsWindow(c, s);
    } else {
      ContinueShape(c, s, now, o);
    }
  }

  lemma CommandKeepsWindow(c: Config, s: Streamer, op: Operator, now: real)
    requires WindowOk(c, s)
    ensures WindowOk(c, DoCommand(s, op, now))
  {
  }
}
