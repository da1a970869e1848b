/** read_line: complete lines out of raw serial reads. The lines do not depend on how the bytes
    were cut into reads, nor on where reads timed out. Lines are bytes here, before decoding. */
module SerialFraming {
  import opened Bytes

  /** One read of the port: some bytes, none before the timeout, an I/O failure, or some bytes
      that are lost because the reading task was cancelled meanwhile. */
  datatype ReadOutcome = Chunk(data: seq<byte>) | Timeout | Failure | Dropped(data: seq<byte>)

  /** What read_line() gives: a line, the empty string of an idle tick, SerialDisconnectedError,
      CancelledError, or nothing yet. */
  datatype LineResult = Line(data: seq<byte>) | Tick | LinkDown | Cancelled | Pending

  // ----- The specification -----------------------------------------------------------------

  /** Without the carriage returns at its end. */
  function StripCr(s: seq<byte>): (kept: seq<byte>)
    ensures kept <= s && (kept == [] || kept[|kept| - 1] != 13)
    ensures forall i :: |kept| <= i < |s| ==> s[i] == 13
  {
    if s != [] && s[|s| - 1] == CR then StripCr(s[..|s| - 1]) else s
  }

  /** The complete lines of a byte stream, without their line ends. */
  function Frames(s: seq<byte>): seq<seq<byte>>
    decreases |s|
  {
    var n := FindLf(s);
    if n == |s| then [] else [StripCr(s[..n])] + Frames(s[n + 1..])
  }

  /** What comes after the last line feed. */
  function Tail(s: seq<byte>): seq<byte>
    decreases |s|
  {
    var n := FindLf(s);
    if n == |s| then s else Tail(s[n + 1..])
  }

  function NonEmpty(lines: seq<seq<byte>>): seq<seq<byte>> {
    if lines == [] then [] else (if lines[0] == [] then [] else [lines[0]]) + NonEmpty(lines[1..])
  }

  /** The bytes a tape delivers up to its first failure. */
  function BytesOf(tape: seq<ReadOutcome>): seq<byte> {
    if tape == [] then [] else
    match tape[0]
    case Chunk(data) => data + BytesOf(tape[1..])
    case Failure => []
    case _ => BytesOf(tape[1..])
  }

  predicate Fails(tape: seq<ReadOutcome>) {
    tape != [] && (tape[0].Failure? || Fails(tape[1..]))
  }

  lemma {:induction false} NonEmptyGrows(a: seq<seq<byte>>, b: seq<seq<byte>>)
    ensures NonEmpty(a + b) == NonEmpty(a) + NonEmpty(b)
  {
    if a == [] {
      assert a + b == b;
    } else {
      assert (a + b)[1..] == a[1..] + b;
      NonEmptyGrows(a[1..], b);
    }
  }

  lemma NothingComplete(s: seq<byte>)
    requires FindLf(s) == |s|
    ensures Frames(s) == [] && Tail(s) == s
  {
  }

  lemma LineComplete(s: seq<byte>)
    requires FindLf(s) < |s|
    ensures Frames(s) == [StripCr(s[..FindLf(s)])] + Frames(s[FindLf(s) + 1..])
    ensures Tail(s) == Tail(s[FindLf(s) + 1..])
  {
  }

  /** New bytes only complete the tail: the lines already there do not change. */
  lemma {:induction false} FramesGrow(a: seq<byte>, b: seq<byte>)
    ensures Frames(a + b) == Frames(a) + Frames(Tail(a) + b)
    ensures Tail(a + b) == Tail(Tail(a) + b)
    decreases |a|
  {
    hide Frames, Tail, FindLf;
    var n := FindLf(a);
    if n >= |a| {
      NothingComplete(a);
      assert [] + Frames(a + b) == Frames(a + b);
    } else {
      assert (a + b)[..n] == a[..n] && (a + b)[n + 1..] == a[n + 1..] + b;
      FindLfIn(a + b, n);
      LineComplete(a);
      LineComplete(a + b);
      FramesGrow(a[n + 1..], b);
      var first, rest, more := [StripCr(a[..n])], Frames(a[n + 1..]), Frames(Tail(a) + b);
      assert (first + rest) + more == first + (rest + more);
    }
  }

  // ----- The program -----------------------------------------------------------------------

  class SerialConnection {
    var rxBuf: seq<byte>
    var portOpen: bool
    /** The outcomes of the reads to come. */
    var toRead: seq<ReadOutcome>
    /** Bytes taken in since the port was opened, and the lines given out of them. */
    ghost var received: seq<byte>
    ghost var delivered: seq<seq<byte>>

    ghost predicate Valid()
      reads this
    {
      && Frames(received) == delivered + Frames(rxBuf)
      && Tail(received) == Tail(rxBuf)
      && (!portOpen ==> rxBuf == [])
    }

    constructor (tape: seq<ReadOutcome>)
      ensures Valid() && portOpen && rxBuf == [] && toRead == tape && received == [] && delivered == []
    {
      rxBuf, portOpen, toRead, received, delivered := [], true, tape, [], [];
    }

    /** close_immediately(): the partial line goes with the session. */
    method CloseImmediately()
      modifies this
      ensures Valid() && !portOpen && rxBuf == [] && toRead == old(toRead) && received == [] && delivered == []
    {
      portOpen := false;
      rxBuf := [];
      received, delivered := [], [];
    }

    /** _open_port(): a session replaced, not closed, leaves its unfinished line in the buffer. */
    method Open(tape: seq<ReadOutcome>)
      requires Valid()
      modifies this
      ensures Valid() && portOpen && toRead == tape && rxBuf == old(rxBuf) && received == rxBuf && delivered == []
    {
      portOpen, toRead := true, tape;
      received, delivered := rxBuf, [];
    }

    /** A line ends up outside the buffer only when its line feed has come; an unfinished line
        stays in the buffer. */
    method ReadLine() returns (r: LineResult)
      requires Valid()
      modifies this
      ensures Valid() && (|toRead| < |old(toRead)| || toRead == old(toRead))
      ensures !r.LinkDown? ==> received + BytesOf(toRead) == old(received + BytesOf(toRead))
      ensures !r.LinkDown? ==> (Fails(toRead) <==> old(Fails(toRead))) && portOpen == old(portOpen)
      ensures r.Line? ==> delivered == old(delivered) + [r.data] && (toRead == old(toRead) ==> |rxBuf| < |old(rxBuf)|)
      ensures r.Tick? || r.Cancelled? || r.Pending? ==>
                delivered == old(delivered) == Frames(received) && rxBuf == Tail(received)
      ensures r.Tick? || r.Cancelled? ==> |toRead| < |old(toRead)|
      ensures r.Pending? ==> toRead == [] && portOpen
      ensures r.LinkDown? ==> !portOpen && rxBuf == []
      ensures r.LinkDown? && old(portOpen) ==>
                old(Fails(toRead)) && old(delivered) == Frames(old(received) + old(BytesOf(toRead)))
    {
      hide Frames, Tail, StripCr, FindLf;
      ghost var all := received + BytesOf(toRead);
      while true
        invariant Valid() && portOpen == old(portOpen) && delivered == old(delivered)
        invariant received + BytesOf(toRead) == all && (Fails(toRead) <==> old(Fails(toRead)))
        invariant || |toRead| < |old(toRead)|
                  || (toRead == old(toRead) && rxBuf == old(rxBuf) && received == old(received))
        decreases |toRead|
      {
        var n := FindLf(rxBuf);
        if n < |rxBuf| {
          LineComplete(rxBuf);
          var line := StripCr(rxBuf[..n]);
          rxBuf := rxBuf[n + 1..];
          delivered := delivered + [line];
          return Line(line);
        }
        NothingComplete(rxBuf);
        if !portOpen { return LinkDown; }
        if toRead == [] { return Pending; }
        var outcome := toRead[0];
        match outcome {
          case Chunk(data) =>
            toRead := toRead[1..];
            FramesGrow(received, data);
            FramesGrow(rxBuf, data);
            assert (received + data) + BytesOf(toRead) == received + (data + BytesOf(toRead));
            rxBuf := rxBuf + data;
            received := received + data;
          case Timeout =>
            toRead := toRead[1..];
            return Tick;
          case Dropped(_) =>
            toRead := toRead[1..];
            return Cancelled;
          case Failure =>
            toRead := toRead[1..];
            assert received + [] == received;
            CloseImmediately();
            return LinkDown;
        }
      }
    }
  }

  /** Read until the reads run out or the link goes down, as the relay and the streamer do, keeping the
      lines that are not empty. */
  method ReadAll(port: SerialConnection) returns (lines: seq<seq<byte>>)
    requires port.Valid() && port.portOpen && port.delivered == []
    modifies port
    ensures port.Valid() && port.portOpen == !old(Fails(port.toRead))
    ensures lines == NonEmpty(Frames(old(port.received) + old(BytesOf(port.toRead))))
    ensures port.rxBuf == if port.portOpen then Tail(old(port.received) + old(BytesOf(port.toRead))) else []
  {
    hide Frames, Tail, NonEmpty;
    lines := [];
    ghost var all, fails := port.received + BytesOf(port.toRead), Fails(port.toRead);
    ghost var before: seq<seq<byte>> := [];
    NothingKept();
    while true
      invariant port.Valid() && port.portOpen
      invariant port.received + BytesOf(port.toRead) == all && (Fails(port.toRead) <==> fails)
      invariant lines == NonEmpty(port.delivered)
      decreases |port.toRead|, |port.rxBuf|
    {
      before := port.delivered;
      var r := port.ReadLine();
      match r {
        case Line(data) =>
          NonEmptyGrows(before, [data]);
          OneKept(data);
          if data != [] { lines := lines + [data]; }
        case Tick =>
        case Cancelled =>
        case Pending =>
          assert port.received + [] == port.received;
          return;
        case LinkDown =>
          return;
      }
    }
  }

  lemma NothingKept()
    ensures NonEmpty([]) == []
  {
  }

  lemma OneKept(line: seq<byte>)
    ensures NonEmpty([line]) == if line == [] then [] else [line]
  {
    assert [line][1..] == [];
  }

  /** One session of the port. However the bytes were cut into reads, and wherever reads timed out or
      were cancelled, these are the lines of the bytes taken in. */
  method ReadSession(tape: seq<ReadOutcome>) returns (lines: seq<seq<byte>>, rest: seq<byte>)
    ensures lines == NonEmpty(Frames(BytesOf(tape)))
    ensures rest == if Fails(tape) then [] else Tail(BytesOf(tape))
  {
    hide Frames, Tail, NonEmpty;
    var port := new SerialConnection(tape);
    assert [] + BytesOf(tape) == BytesOf(tape);
    lines := ReadAll(port);
    rest := port.rxBuf;
  }

  // ----- Sessions one after the other ------------------------------------------------------

  /** The lines of a port opened again and again. A session that failed takes its unfinished line
      with it; one that a further open replaced leaves it to the next. */
  function LinkLines(carried: seq<byte>, tapes: seq<seq<ReadOutcome>>): seq<seq<byte>>
    decreases |tapes|
  {
    if tapes == [] then []
    else
      var all := carried + BytesOf(tapes[0]);
      NonEmpty(Frames(all)) + LinkLines(if Fails(tapes[0]) then [] else Tail(all), tapes[1..])
  }

  /** The same connection over several sessions. */
  method ReadLink(tapes: seq<seq<ReadOutcome>>) returns (lines: seq<seq<byte>>)
    ensures lines == LinkLines([], tapes)
  {
    hide Frames, Tail, NonEmpty;
    var port := new SerialConnection([]);
    port.CloseImmediately();
    lines := [];
    var i := 0;
    assert tapes[0..] == tapes;
    while i < |tapes|
      invariant 0 <= i <= |tapes| && fresh(port) && port.Valid()
      invariant lines + LinkLines(port.rxBuf, tapes[i..]) == LinkLines([], tapes)
    {
      ghost var carried := port.rxBuf;
      port.Open(tapes[i]);
      var more := ReadAll(port);
      assert tapes[i..][1..] == tapes[i + 1..];
      ghost var rest := LinkLines(port.rxBuf, tapes[i + 1..]);
      assert LinkLines(carried, tapes[i..]) == more + rest;
      assert lines + (more + rest) == (lines + more) + rest;
      lines := lines + more;
      i := i + 1;
    }
    assert lines + [] == lines;
  }

  lemma {:induction false} BytesJoin(a: seq<ReadOutcome>, b: seq<ReadOutcome>)
    requires !Fails(a)
    ensures BytesOf(a + b) == BytesOf(a) + BytesOf(b) && (Fails(a + b) <==> Fails(b))
  {
    if a == [] {
      assert a + b == b;
    } else {
      assert (a + b)[1..] == a[1..] + b;
      BytesJoin(a[1..], b);
    }
  }

  /** An open that replaces a session cuts no line in two: the lines are those of one session with the
      reads of both. Only a failure separates. */
  lemma ReopenIsSeamless(carried: seq<byte>, a: seq<ReadOutcome>, b: seq<ReadOutcome>, rest: seq<seq<ReadOutcome>>)
    requires !Fails(a)
    ensures LinkLines(carried, [a, b] + rest) == LinkLines(carried, [a + b] + rest)
  {
    hide Frames, Tail, NonEmpty, BytesOf, Fails;
    BytesJoin(a, b);
    var x, y := carried + BytesOf(a), BytesOf(b);
    FramesGrow(x, y);
    NonEmptyGrows(Frames(x), Frames(Tail(x) + y));
    assert carried + BytesOf(a + b) == x + y;
    assert ([a, b] + rest)[1..] == [b] + rest && ([b] + rest)[1..] == rest && ([a + b] + rest)[1..] == rest;
    var last := LinkLines(if Fails(b) then [] else Tail(x + y), rest);
    assert LinkLines(Tail(x), [b] + rest) == NonEmpty(Frames(Tail(x) + y)) + last;
    assert NonEmpty(Frames(x)) + (NonEmpty(Frames(Tail(x) + y)) + last)
        == (NonEmpty(Frames(x)) + NonEmpty(Frames(Tail(x) + y))) + last;
  }
}
