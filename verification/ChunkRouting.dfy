/** A TCP chunk from the client: how its bytes become real-time bytes and lines for the proxy, and
    when the chunk's one serial write, made once all of it was routed, carries client lines into a
    capture or a job that the same chunk began. */
module ChunkRouting {
  import opened Bytes
  import opened Gcode
  import opened GrblProtocol
  import opened ProxyModel
  import opened ProxyRuns
  import opened Text

  // ----- Bytes and text --------------------------------------------------------------------

  /** ASCII bytes as text. */
  function Decode(bytes: seq<byte>): string {
    seq(|bytes|, i requires 0 <= i < |bytes| => bytes[i] as char)
  }

  /** ASCII text as bytes; a character outside one byte has no byte here. */
  function Encode(text: string): seq<byte> {
    seq(|text|, i requires 0 <= i < |text| => if text[i] as int < 256 then text[i] as int else 0)
  }

  /** Without the carriage returns and line feeds at its end. */
  function StripLineEnd(bytes: seq<byte>): (kept: seq<byte>)
    ensures kept <= bytes && (kept == [] || (kept[|kept| - 1] != 13 && kept[|kept| - 1] != 10))
    ensures forall i :: |kept| <= i < |bytes| ==> bytes[i] == 13 || bytes[i] == 10
  {
    if bytes != [] && bytes[|bytes| - 1] in [CR, LF] then StripLineEnd(bytes[..|bytes| - 1]) else bytes
  }

  /** The text of an assembled line: line.decode().rstrip("\r\n"). */
  function LineText(buf: seq<byte>): string {
    Decode(StripLineEnd(buf))
  }

  function BytesOf(s: Sent): seq<byte> {
    match s
    case SentByte(b, _) => [b]
    case SentLine(line, _) => Encode(line) + [LF]
    case SentConsole(line) => Encode(line) + [LF]
  }

  function Flushed(sent: seq<Sent>, now: bool): seq<byte> {
    if sent == [] then []
    else (if !sent[0].SentConsole? && sent[0].now == now then BytesOf(sent[0]) else []) + Flushed(sent[1..], now)
  }

  // ----- One chunk -------------------------------------------------------------------------

  /** The state while a chunk is routed: the core, the unfinished line, the bytes for the
      chunk's write, what was written at once, and the replies. */
  datatype Routing = Routing(core: Proxy, lineBuf: seq<byte>, sink: seq<byte>, direct: seq<byte>, replies: seq<string>)

  function Take(r: Routing, core: Proxy, lineBuf: seq<byte>, out: Out): Routing {
    Routing(core, lineBuf, r.sink + Flushed(out.sent, false), r.direct + Flushed(out.sent, true),
            r.replies + out.replies)
  }

  function RouteByte(c: Settings, r: Routing, b: byte, opens: bool, writes: bool): Routing {
    var (core, out) := OnRawByte(r.core, b, writes);
    var r1 := Take(r, core, r.lineBuf, out);
    if IsRealtimeCommand(b) then r1
    else if b != LF then r1.(lineBuf := r.lineBuf + [b])
    else
      var (core2, out2) := OnClientLine(c, core, LineText(r.lineBuf + [b]), opens, writes);
      Take(r1, core2, [], out2)
  }

  function RouteAll(c: Settings, r: Routing, data: seq<byte>, opens: bool, writes: bool): Routing
    decreases |data|
  {
    if data == [] then r else RouteAll(c, RouteByte(c, r, data[0], opens, writes), data[1..], opens, writes)
  }

  lemma RouteTurn(c: Settings, r: Routing, data: seq<byte>, i: nat, opens: bool, writes: bool)
    requires i <= |data|
    ensures RouteAll(c, r, data[i..], opens, writes)
         == if i == |data| then r
            else RouteAll(c, RouteByte(c, r, data[i], opens, writes), data[i + 1..], opens, writes)
  {
    hide RouteByte;
    assert i < |data| ==> data[i..][1..] == data[i + 1..];
  }

  // ----- What a chunk consists of ----------------------------------------------------------

  /** A real-time byte, or a line that the chunk completes. */
  datatype Item = RealTime(b: byte) | ClientText(line: string)

  /** The items of a chunk that comes after the unfinished line lineBuf. */
  function Items(lineBuf: seq<byte>, data: seq<byte>): seq<Item>
    decreases |data|
  {
    if data == [] then []
    else if IsRealtimeCommand(data[0]) then [RealTime(data[0])] + Items(lineBuf, data[1..])
    else if data[0] == LF then [ClientText(LineText(lineBuf + [LF]))] + Items([], data[1..])
    else Items(lineBuf + [data[0]], data[1..])
  }

  predicate Starts(c: Settings, i: Item) {
    i.ClientText? && Matches(c.startMarker, i.line)
  }

  /** The end marker or a program end. */
  predicate Ends(c: Settings, i: Item) {
    i.ClientText? && i.line != "" && !Ordinary(c, i.line)
  }

  /** Feed hold, cycle resume and soft reset give up a capture. */
  predicate Discards(i: Item) {
    i.RealTime? && i.b in [HOLD, RESUME, RESET]
  }

  /** $X or $H */
  predicate Unlocks(i: Item) {
    i.ClientText? && i.line != "" && !IsLaserOff(i.line) && ClearsError(i.line)
  }

  /** A capture is opened at position s: by a start marker, or before the chunk (position -1). */
  predicate Opening(c: Settings, opens: bool, capturing: bool, items: seq<Item>, s: int) {
    if s == -1 then capturing else 0 <= s < |items| && opens && Starts(c, items[s])
  }

  predicate Undisturbed(items: seq<Item>, s: int, e: int) {
    forall k :: 0 <= k < |items| && s < k < e ==> !Discards(items[k])
  }

  /** A capture was opened and not given up since. */
  ghost predicate CaptureOpen(c: Settings, opens: bool, capturing: bool, items: seq<Item>) {
    exists s :: Opening(c, opens, capturing, items, s) && Undisturbed(items, s, |items|)
  }

  /** A capture was opened, and ended before it was given up: its job has begun. */
  ghost predicate JobBegins(c: Settings, opens: bool, capturing: bool, items: seq<Item>) {
    exists s, e ::
      Opening(c, opens, capturing, items, s) && s < e < |items| && Ends(c, items[e]) && Undisturbed(items, s, e)
  }

  ghost predicate TakenOver(c: Settings, opens: bool, capturing: bool, items: seq<Item>) {
    CaptureOpen(c, opens, capturing, items) || JobBegins(c, opens, capturing, items)
  }

  /** A line, no start marker, that comes while neither a capture nor a job is on. */
  ghost predicate PassesLine(c: Settings, opens: bool, capturing: bool, items: seq<Item>) {
    exists f :: 0 <= f < |items| && items[f].ClientText? && !Starts(c, items[f])
                && !TakenOver(c, opens, capturing, items[..f])
  }

  // ----- The proxy's state over the items --------------------------------------------------

  /** The state after one item; a job's pauses make no difference here. */
  function Phase(c: Settings, opens: bool, state: ProxyState, i: Item): ProxyState {
    match state
    case Passthrough => if opens && Starts(c, i) then Buffering else Passthrough
    case Buffering => if Discards(i) then Passthrough else if Ends(c, i) then Executing else Buffering
    case Paused => Executing
    case Error => if Unlocks(i) then Passthrough else Error
    case _ => state
  }

  function Phases(c: Settings, opens: bool, state: ProxyState, items: seq<Item>): ProxyState
    decreases |items|
  {
    if items == [] then state else Phases(c, opens, Phase(c, opens, state, items[0]), items[1..])
  }

  predicate Passed(c: Settings, state: ProxyState, i: Item) {
    state == Passthrough && i.ClientText? && !Starts(c, i)
  }

  predicate SomePassed(c: Settings, opens: bool, state: ProxyState, items: seq<Item>)
    decreases |items|
  {
    items != [] && (Passed(c, state, items[0]) || SomePassed(c, opens, Phase(c, opens, state, items[0]), items[1..]))
  }

  lemma {:induction false} PhasesAppend(c: Settings, opens: bool, state: ProxyState, items: seq<Item>, x: Item)
    ensures Phases(c, opens, state, items + [x]) == Phase(c, opens, Phases(c, opens, state, items), x)
    ensures SomePassed(c, opens, state, items + [x])
            <==> SomePassed(c, opens, state, items) || Passed(c, Phases(c, opens, state, items), x)
    decreases |items|
  {
    hide Phase, Passed;
    if items == [] {
      assert [x][1..] == [] && [] + [x] == [x];
      assert Phases(c, opens, Phase(c, opens, state, x), []) == Phase(c, opens, state, x);
    } else {
      assert (items + [x])[1..] == items[1..] + [x];
      PhasesAppend(c, opens, Phase(c, opens, state, items[0]), items[1..], x);
    }
  }

  lemma OneMore(c: Settings, opens: bool, capturing: bool, items: seq<Item>, x: Item)
    ensures var more := items + [x];
            && (CaptureOpen(c, opens, capturing, more)
                <==> (CaptureOpen(c, opens, capturing, items) && !Discards(x)) || (opens && Starts(c, x)))
            && (JobBegins(c, opens, capturing, more)
                <==> JobBegins(c, opens, capturing, items) || (Ends(c, x) && CaptureOpen(c, opens, capturing, items)))
  {
    hide Starts, Ends, Discards;
    CaptureGrows(c, opens, capturing, items, x);
    JobGrows(c, opens, capturing, items, x);
  }

  lemma CaptureGrows(c: Settings, opens: bool, capturing: bool, items: seq<Item>, x: Item)
    ensures CaptureOpen(c, opens, capturing, items + [x])
            <==> (CaptureOpen(c, opens, capturing, items) && !Discards(x)) || (opens && Starts(c, x))
  {
    hide Starts, Ends, Discards;
    var more, n := items + [x], |items|;
    if CaptureOpen(c, opens, capturing, more) {
      var s :| Opening(c, opens, capturing, more, s) && Undisturbed(more, s, |more|);
      if s < n {
        assert !Discards(more[n]);
        assert Opening(c, opens, capturing, items, s);
        assert Undisturbed(items, s, n) by { assert forall k :: 0 <= k < n ==> items[k] == more[k]; }
      }
    }
    if CaptureOpen(c, opens, capturing, items) && !Discards(x) {
      var s :| Opening(c, opens, capturing, items, s) && Undisturbed(items, s, n);
      assert Opening(c, opens, capturing, more, s) && Undisturbed(more, s, |more|);
    }
    if opens && Starts(c, x) {
      assert Opening(c, opens, capturing, more, n) && Undisturbed(more, n, |more|);
    }
  }

  lemma JobGrows(c: Settings, opens: bool, capturing: bool, items: seq<Item>, x: Item)
    ensures JobBegins(c, opens, capturing, items + [x])
            <==> JobBegins(c, opens, capturing, items) || (Ends(c, x) && CaptureOpen(c, opens, capturing, items))
  {
    hide Starts, Ends, Discards;
    var more, n := items + [x], |items|;
    if JobBegins(c, opens, capturing, more) {
      var s, e :| Opening(c, opens, capturing, more, s) && s < e < |more| && Ends(c, more[e])
                  && Undisturbed(more, s, e);
      assert Opening(c, opens, capturing, items, s);
      assert Undisturbed(items, s, e) by { assert forall k :: 0 <= k < n ==> items[k] == more[k]; }
      if e < n { assert Ends(c, items[e]); } else { assert Undisturbed(items, s, n); }
    }
    if JobBegins(c, opens, capturing, items) {
      var s, e :| Opening(c, opens, capturing, items, s) && s < e < n && Ends(c, items[e]) && Undisturbed(items, s, e);
      assert Opening(c, opens, capturing, more, s) && Ends(c, more[e]) && Undisturbed(more, s, e);
    }
    if Ends(c, x) && CaptureOpen(c, opens, capturing, items) {
      var s :| Opening(c, opens, capturing, items, s) && Undisturbed(items, s, n);
      assert Opening(c, opens, capturing, more, s) && Ends(c, more[n]) && Undisturbed(more, s, n);
    }
  }

  lemma PassGrows(c: Settings, opens: bool, capturing: bool, items: seq<Item>, x: Item)
    ensures PassesLine(c, opens, capturing, items + [x])
            <==> PassesLine(c, opens, capturing, items)
                 || (x.ClientText? && !Starts(c, x) && !TakenOver(c, opens, capturing, items))
  {
    hide Starts, TakenOver;
    var more, n := items + [x], |items|;
    assert more[..n] == items && forall f :: 0 <= f < n ==> more[..f] == items[..f] && more[f] == items[f];
    if PassesLine(c, opens, capturing, items) {
      var f :| 0 <= f < |items| && items[f].ClientText? && !Starts(c, items[f])
               && !TakenOver(c, opens, capturing, items[..f]);
      assert more[f].ClientText? && !TakenOver(c, opens, capturing, more[..f]);
    }
    if x.ClientText? && !Starts(c, x) && !TakenOver(c, opens, capturing, items) {
      assert more[n].ClientText? && !TakenOver(c, opens, capturing, more[..n]);
    }
  }

  /** Where the items take a proxy that was in Passthrough, or capturing. */
  lemma {:induction false} PhasesShow(c: Settings, opens: bool, capturing: bool, items: seq<Item>)
    ensures var state := Phases(c, opens, if capturing then Buffering else Passthrough, items);
            && state in [Passthrough, Buffering, Executing]
            && (state == Executing <==> JobBegins(c, opens, capturing, items))
            && (state != Passthrough <==> TakenOver(c, opens, capturing, items))
    ensures SomePassed(c, opens, if capturing then Buffering else Passthrough, items)
            <==> PassesLine(c, opens, capturing, items)
    decreases |items|
  {
    hide Starts, Ends, Discards, JobBegins, CaptureOpen, PassesLine;
    var state := if capturing then Buffering else Passthrough;
    if items == [] {
      NothingYet(c, opens, capturing);
    } else {
      var n := |items| - 1;
      var init, x := items[..n], items[n];
      assert items == init + [x];
      PhasesShow(c, opens, capturing, init);
      PhasesAppend(c, opens, state, init, x);
      OneMore(c, opens, capturing, init, x);
      PassGrows(c, opens, capturing, init, x);
      KindsApart(c, x);
    }
  }

  lemma KindsApart(c: Settings, x: Item)
    ensures Discards(x) ==> !Starts(c, x) && !Ends(c, x)
  {
  }

  lemma NothingYet(c: Settings, opens: bool, capturing: bool)
    ensures CaptureOpen(c, opens, capturing, []) <==> capturing
    ensures !JobBegins(c, opens, capturing, []) && !PassesLine(c, opens, capturing, [])
  {
    if capturing { assert Opening(c, opens, capturing, [], -1) && Undisturbed([], -1, 0); }
  }

  // ----- The chunk's write -----------------------------------------------------------------

  /** A job's states are one here. */
  function Flat(state: ProxyState): ProxyState {
    if state == Paused then Executing else state
  }

  ghost predicate Attended(c: Settings, p: Proxy) {
    Consistent(c, p) && p.hasClient
  }

  /** What a byte does to the state, and that it puts itself on the line or nothing. */
  lemma ByteEffect(c: Settings, p: Proxy, b: byte, opens: bool)
    ensures var (p', out) := OnRawByte(p, b, true);
            && p'.hasClient == p.hasClient
            && (out.sent == [] || out.sent == [SentByte(b, false)] || out.sent == [SentByte(b, true)])
            && (!IsRealtimeCommand(b) ==> out.sent == [] && p'.state == p.state)
            && (IsRealtimeCommand(b) ==> Flat(p'.state) == Phase(c, opens, Flat(p.state), RealTime(b)))
  {
    hide IsRealtimeCommand, SyntheticStatus, Matches, ALARM_STATUS, Told, Ordinary, IsLaserOff, ClearsError;
  }

  lemma ByteRouted(c: Settings, r: Routing, b: byte, opens: bool)
    requires Attended(c, r.core)
    requires b != LF || IsRealtimeCommand(b)
    ensures var r' := RouteByte(c, r, b, opens, true);
            && Attended(c, r'.core)
            && (LF in r'.sink <==> LF in r.sink)
            && r'.lineBuf == (if IsRealtimeCommand(b) then r.lineBuf else r.lineBuf + [b])
            && Flat(r'.core.state) == if IsRealtimeCommand(b) then Phase(c, opens, Flat(r.core.state), RealTime(b))
                                      else Flat(r.core.state)
  {
    hide IsRealtimeCommand, Consistent, OnRawByte, Phase, Flat, Flushed;
    ByteKeepsConsistent(c, r.core, b, true);
    ByteEffect(c, r.core, b, opens);
    FlushedByte(b);
    NotLf(b);
  }

  lemma FlushedByte(b: byte)
    ensures Flushed([SentByte(b, false)], false) == [b] && Flushed([SentByte(b, true)], false) == []
    ensures Flushed([], false) == []
  {
    assert [SentByte(b, false)][1..] == [] && [SentByte(b, true)][1..] == [];
  }

  lemma NotLf(b: byte)
    ensures IsRealtimeCommand(b) ==> b != LF
  {
  }

  /** What a line does to the state, and that only a line passed through joins the chunk's write. */
  lemma LineEffect(c: Settings, p: Proxy, line: string, opens: bool)
    requires Attended(c, p) && p.serialKnown
    ensures var (p', out) := OnClientLine(c, p, line, opens, true);
            && p'.hasClient
            && (out.sent == [] || out.sent == [SentLine(line, false)] || out.sent == [SentLine(line, true)])
            && (out.sent == [SentLine(line, false)] <==> Passed(c, Flat(p.state), ClientText(line)))
            && Flat(p'.state) == Phase(c, opens, Flat(p.state), ClientText(line))
  {
    hide Matches, IsProgramEnd, IsLaserOff, ClearsError, JobLines, AskedToPause;
  }

  lemma LineRouted(c: Settings, r: Routing, opens: bool)
    requires Attended(c, r.core)
    ensures var r' := RouteByte(c, r, LF, opens, true); var i := ClientText(LineText(r.lineBuf + [LF]));
            && Attended(c, r'.core) && r'.lineBuf == []
            && (LF in r'.sink <==> LF in r.sink || Passed(c, Flat(r.core.state), i))
            && Flat(r'.core.state) == Phase(c, opens, Flat(r.core.state), i)
  {
    hide Consistent, OnRawByte, OnClientLine, Phase, Flat, Flushed, Passed, LineText;
    var line := LineText(r.lineBuf + [LF]);
    LfIsPlain(r.core);
    ByteKeepsConsistent(c, r.core, LF, true);
    var core := OnRawByte(r.core, LF, true).0;
    LineKeepsConsistent(c, core, line, opens, true);
    LineEffect(c, core, line, opens);
    FlushedLine(line);
  }

  lemma LfIsPlain(p: Proxy)
    ensures !IsRealtimeCommand(LF) && OnRawByte(p, LF, true) == (p.(serialKnown := true), SILENT)
  {
  }

  lemma FlushedLine(line: string)
    ensures LF in Flushed([SentLine(line, false)], false) && Flushed([SentLine(line, true)], false) == []
    ensures Flushed([], false) == []
  {
    assert [SentLine(line, false)][1..] == [] && [SentLine(line, true)][1..] == [];
  }

  lemma {:induction false} ChunkFollowsItems(c: Settings, r: Routing, data: seq<byte>, opens: bool)
    requires Attended(c, r.core)
    ensures var r' := RouteAll(c, r, data, opens, true); var items := Items(r.lineBuf, data);
            && Attended(c, r'.core)
            && (LF in r'.sink <==> LF in r.sink || SomePassed(c, opens, Flat(r.core.state), items))
            && Flat(r'.core.state) == Phases(c, opens, Flat(r.core.state), items)
    decreases |data|
  {
    hide Attended, RouteByte, Phase, Flat, LineText, IsRealtimeCommand;
    if data == [] {
    } else {
      var b := data[0];
      var r1 := RouteByte(c, r, b, opens, true);
      NotLf(b);
      if b == LF { LineRouted(c, r, opens); } else { ByteRouted(c, r, b, opens); }
      ChunkFollowsItems(c, r1, data[1..], opens);
      var rest := Items(r1.lineBuf, data[1..]);
      if IsRealtimeCommand(b) {
        assert ([RealTime(b)] + rest)[1..] == rest;
      } else if b == LF {
        assert ([ClientText(LineText(r.lineBuf + [LF]))] + rest)[1..] == rest;
      }
    }
  }

  // ----- Lines that reach a capture or a job -----------------------------------------------

  /** What comes after the first line that unlocks a proxy in ERROR; nothing if none does. */
  function AfterUnlock(items: seq<Item>): seq<Item> {
    if items == [] then [] else if Unlocks(items[0]) then items[1..] else AfterUnlock(items[1..])
  }

  /** In terms of the bytes alone: a chunk that finds the proxy in `state` carries a line into a
      capture or a job. */
  ghost predicate CarriesIntoCapture(c: Settings, state: ProxyState, lineBuf: seq<byte>, data: seq<byte>, opens: bool) {
    var items := Items(lineBuf, data);
    match state
    case Passthrough => PassesLine(c, opens, false, items) && TakenOver(c, opens, false, items)
    case Buffering => PassesLine(c, opens, true, items) && TakenOver(c, opens, true, items)
    case Error => PassesLine(c, opens, false, AfterUnlock(items)) && TakenOver(c, opens, false, AfterUnlock(items))
    case _ => false
  }

  /** And into a job that is already being streamed. */
  ghost predicate CarriesIntoJob(c: Settings, state: ProxyState, lineBuf: seq<byte>, data: seq<byte>, opens: bool) {
    var items := Items(lineBuf, data);
    match state
    case Passthrough => PassesLine(c, opens, false, items) && JobBegins(c, opens, false, items)
    case Buffering => PassesLine(c, opens, true, items) && JobBegins(c, opens, true, items)
    case Error => PassesLine(c, opens, false, AfterUnlock(items)) && JobBegins(c, opens, false, AfterUnlock(items))
    case _ => false
  }

  lemma {:induction false} LockedUntil(c: Settings, opens: bool, items: seq<Item>)
    ensures var rest := AfterUnlock(items);
            && (SomePassed(c, opens, Error, items) <==> SomePassed(c, opens, Passthrough, rest))
            && (Phases(c, opens, Error, items) == Phases(c, opens, Passthrough, rest)
                || (Phases(c, opens, Error, items) == Error && Phases(c, opens, Passthrough, rest) == Passthrough))
  {
    hide Unlocks, Starts;
    if items == [] {
    } else if Unlocks(items[0]) {
    } else {
      LockedUntil(c, opens, items[1..]);
    }
  }

  lemma {:induction false} JobKeepsOn(c: Settings, opens: bool, items: seq<Item>)
    ensures Phases(c, opens, Executing, items) == Executing && !SomePassed(c, opens, Executing, items)
  {
    if items == [] {
    } else {
      JobKeepsOn(c, opens, items[1..]);
    }
  }

  /** The bytes of a chunk tell whether its write holds a client line while the proxy captures, or
      streams a job. */
  ghost predicate BytesTell(c: Settings, p: Proxy, lineBuf: seq<byte>, data: seq<byte>, opens: bool,
                            written: seq<byte>, after: Proxy)
  {
    Attended(c, p) ==>
      && (LF in written && (after.state == Buffering || JobRuns(after))
          <==> CarriesIntoCapture(c, p.state, lineBuf, data, opens))
      && (LF in written && JobRuns(after) <==> CarriesIntoJob(c, p.state, lineBuf, data, opens))
  }

  lemma ChunkWriteExactly(c: Settings, p: Proxy, lineBuf: seq<byte>, data: seq<byte>, opens: bool)
    ensures var r := RouteAll(c, Routing(p, lineBuf, [], [], []), data, opens, true);
            BytesTell(c, p, lineBuf, data, opens, r.sink, r.core)
  {
    hide RouteAll, Phases, SomePassed, PassesLine, TakenOver, JobBegins, Items, Consistent;
    if Attended(c, p) {
      var items := Items(lineBuf, data);
      ChunkFollowsItems(c, Routing(p, lineBuf, [], [], []), data, opens);
      PhasesShow(c, opens, false, items);
      PhasesShow(c, opens, true, items);
      PhasesShow(c, opens, false, AfterUnlock(items));
      LockedUntil(c, opens, items);
      JobKeepsOn(c, opens, items);
      ClientIsThere(c, p);
      match p.state
      case Passthrough =>
      case Buffering =>
      case Executing =>
      case Paused =>
      case Error =>
    }
  }

  lemma ClientIsThere(c: Settings, p: Proxy)
    requires Attended(c, p)
    ensures p.state != Disconnected
  {
  }

  /** A start marker stands before position n. */
  predicate StartBefore(c: Settings, items: seq<Item>, n: int) {
    exists s :: 0 <= s < n && s < |items| && Starts(c, items[s])
  }

  /** At position f stands a line, and no start marker up to there. */
  predicate LineFirst(c: Settings, items: seq<Item>, f: int) {
    0 <= f < |items| && items[f].ClientText? && !StartBefore(c, items, f + 1)
  }

  /** Of a chunk without hold, resume and reset that comes in Passthrough: it carries a line into a
      capture or a job if and only if a line stands before its first start marker. */
  lemma WithoutDiscards(c: Settings, lineBuf: seq<byte>, data: seq<byte>)
    requires forall i :: i in Items(lineBuf, data) ==> !Discards(i)
    ensures var items := Items(lineBuf, data);
            CarriesIntoCapture(c, Passthrough, lineBuf, data, true)
            <==> StartBefore(c, items, |items|) && exists f :: LineFirst(c, items, f)
  {
    hide Starts, Discards, Items, Ends, TakenOver, PassesLine, LineFirst, StartBefore;
    var items := Items(lineBuf, data);
    assert items[..|items|] == items;
    TakenBefore(c, items, |items|);
    LineFirstPasses(c, items);
  }

  lemma LineFirstPasses(c: Settings, items: seq<Item>)
    requires forall i :: i in items ==> !Discards(i)
    ensures PassesLine(c, true, false, items) <==> exists f :: LineFirst(c, items, f)
  {
    hide Starts, Discards, Ends, TakenOver;
    if PassesLine(c, true, false, items) {
      var f :| 0 <= f < |items| && items[f].ClientText? && !Starts(c, items[f])
               && !TakenOver(c, true, false, items[..f]);
      TakenBefore(c, items, f);
      assert LineFirst(c, items, f);
    }
    if exists f :: LineFirst(c, items, f) {
      var f :| LineFirst(c, items, f);
      TakenBefore(c, items, f);
      assert !Starts(c, items[f]) && !StartBefore(c, items, f);
      assert items[f].ClientText? && !TakenOver(c, true, false, items[..f]);
    }
  }

  lemma TakenBefore(c: Settings, items: seq<Item>, n: nat)
    requires n <= |items| && forall i :: i in items ==> !Discards(i)
    ensures TakenOver(c, true, false, items[..n]) <==> StartBefore(c, items, n)
  {
    hide Starts, Discards, Ends, TakenOver;
    var prefix := items[..n];
    assert forall i :: i in prefix ==> i in items;
    TakenByStart(c, prefix);
    if s :| 0 <= s < |prefix| && Starts(c, prefix[s]) { assert Starts(c, items[s]); }
    if StartBefore(c, items, n) {
      var s :| 0 <= s < n && s < |items| && Starts(c, items[s]);
      assert Starts(c, prefix[s]);
    }
  }

  lemma TakenByStart(c: Settings, items: seq<Item>)
    requires forall i :: i in items ==> !Discards(i)
    ensures TakenOver(c, true, false, items) <==> exists s :: 0 <= s < |items| && Starts(c, items[s])
  {
    hide Starts, Discards, Ends;
    if s :| 0 <= s < |items| && Starts(c, items[s]) {
      assert Opening(c, true, false, items, s) && Undisturbed(items, s, |items|);
    }
  }

  /** A chunk that finds a job running carries no line to the controller. */
  lemma JobChunkWritesNoLine(c: Settings, p: Proxy, lineBuf: seq<byte>, data: seq<byte>, opens: bool)
    requires Attended(c, p) && JobRuns(p)
    ensures var r := RouteAll(c, Routing(p, lineBuf, [], [], []), data, opens, true);
            LF !in r.sink && JobRuns(r.core)
  {
    hide RouteAll, Phases, SomePassed, Items, Consistent;
    ChunkFollowsItems(c, Routing(p, lineBuf, [], [], []), data, opens);
    JobKeepsOn(c, opens, Items(lineBuf, data));
  }

  const SEMICOLON := Settings(";", "", false)
  const G_BYTES: seq<byte> := ['G' as int]
  const START_BYTES: seq<byte> := [LF, ';' as int, LF]
  const JOB_BYTES: seq<byte> := [LF, ';' as int, LF, 'M' as int, '2' as int, LF]

  lemma {:induction false} ItemsOfLine(lineBuf: seq<byte>, text: seq<byte>, rest: seq<byte>)
    requires forall b :: b in text ==> b != LF && !IsRealtimeCommand(b)
    ensures Items(lineBuf, text + [LF] + rest) == [ClientText(LineText(lineBuf + text + [LF]))] + Items([], rest)
    decreases |text|
  {
    hide LineText, IsRealtimeCommand;
    NotLf(LF);
    var data := text + [LF] + rest;
    if text == [] {
      assert data[1..] == rest && lineBuf + text + [LF] == lineBuf + [LF];
    } else {
      assert data[1..] == text[1..] + [LF] + rest;
      assert (lineBuf + [text[0]]) + text[1..] + [LF] == lineBuf + text + [LF];
      ItemsOfLine(lineBuf + [text[0]], text[1..], rest);
    }
  }

  lemma LineOf(text: seq<byte>)
    requires text != [] && text[|text| - 1] !in [CR, LF]
    ensures LineText(text + [LF]) == Decode(text)
  {
    assert (text + [LF])[..|text|] == text;
    assert StripLineEnd(text) == text;
    assert StripLineEnd(text + [LF]) == StripLineEnd(text);
  }

  lemma ShortLines()
    ensures Starts(SEMICOLON, ClientText(";")) && !Starts(SEMICOLON, ClientText("G"))
    ensures Ends(SEMICOLON, ClientText("M2"))
  {
    assert Normal(";") && Normal("G");
    NormalStays(";");
    NormalStays("G");
    StripTrimmed(";");
    M2Ends();
  }

  lemma ShortText()
    ensures LineText(G_BYTES + [LF]) == "G" && LineText([';' as int] + [LF]) == ";"
    ensures LineText(['M' as int, '2' as int] + [LF]) == "M2"
    ensures forall b :: b in [';' as int, 'M' as int, '2' as int] ==> b != LF && !IsRealtimeCommand(b)
  {
    hide LineText;
    LineOf(G_BYTES);
    LineOf([';' as int]);
    LineOf(['M' as int, '2' as int]);
  }

  /** The items of the two chunks, after the unfinished line G. */
  lemma ShortItems()
    ensures Items(G_BYTES, START_BYTES) == [ClientText("G"), ClientText(";")]
    ensures Items(G_BYTES, JOB_BYTES) == [ClientText("G"), ClientText(";"), ClientText("M2")]
  {
    hide LineText, IsRealtimeCommand;
    ShortText();
    var semicolon: seq<byte>, end: seq<byte> := [';' as int], ['M' as int, '2' as int];
    assert G_BYTES + [] + [LF] == G_BYTES + [LF];
    assert [] + semicolon + [LF] == semicolon + [LF] && [] + end + [LF] == end + [LF];
    assert START_BYTES == [] + [LF] + (semicolon + [LF] + []);
    assert JOB_BYTES == [] + [LF] + (semicolon + [LF] + (end + [LF] + []));
    assert forall b :: b in semicolon ==> b in [';' as int, 'M' as int, '2' as int];
    assert forall b :: b in end ==> b in [';' as int, 'M' as int, '2' as int];
    assert Items([], []) == [];
    hide Items;
    ItemsOfLine(G_BYTES, [], semicolon + [LF] + []);
    ItemsOfLine([], semicolon, []);
    ItemsOfLine(G_BYTES, [], semicolon + [LF] + (end + [LF] + []));
    ItemsOfLine([], semicolon, end + [LF] + []);
    ItemsOfLine([], end, []);
  }

  /** It happens: with ";" as start marker, one chunk ends the line G, starts a job and ends it. G is
      written when the streamer is already there; and, without the program end, into a capture. */
  lemma ChunkReachesTheJob(p: Proxy)
    requires Attended(SEMICOLON, p) && p.state == Passthrough
    ensures var r := RouteAll(SEMICOLON, Routing(p, G_BYTES, [], [], []), JOB_BYTES, true, true);
            LF in r.sink && JobRuns(r.core)
    ensures var r := RouteAll(SEMICOLON, Routing(p, G_BYTES, [], [], []), START_BYTES, true, true);
            LF in r.sink && r.core.state == Buffering
  {
    hide RouteAll, Starts, Ends, Items, Consistent;
    ShortLines();
    ShortItems();
    var short, long := [ClientText("G"), ClientText(";")], [ClientText("G"), ClientText(";"), ClientText("M2")];
    ChunkFollowsItems(SEMICOLON, Routing(p, G_BYTES, [], [], []), JOB_BYTES, true);
    ChunkFollowsItems(SEMICOLON, Routing(p, G_BYTES, [], [], []), START_BYTES, true);
    assert short[1..] == [ClientText(";")] && long[1..] == [ClientText(";"), ClientText("M2")];
    assert [ClientText(";")][1..] == [] && [ClientText(";"), ClientText("M2")][1..] == [ClientText("M2")];
    assert [ClientText("M2")][1..] == [];
    assert Phases(SEMICOLON, true, Buffering, [ClientText("M2")]) == Executing;
  }
}
