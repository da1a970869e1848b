/** _route_bytes: TCP chunks from the client become real-time bytes and lines for ProxyCore, and
    what goes on to the controller leaves in one write a chunk. */
module TcpRouting {
  import opened Options
  import opened Bytes
  import opened Gcode
  import opened GrblProtocol
  import opened ChunkRouting
  import opened ProxyModel
  import opened ProxyRuns
  import opened ProxyCores

  // ----- The program -----------------------------------------------------------------------

  class TcpServer {
    const core: ProxyCore
    var lineBuf: seq<byte>

    constructor (core: ProxyCore)
      ensures this.core == core && lineBuf == []
    {
      this.core := core;
      lineBuf := [];
    }

    /** Route one chunk. `written` is the chunk's one serial write, if it has any; it goes out when all
        of the chunk was routed, and so may carry a line into what a later line of the chunk began. */
    method RouteBytes(data: seq<byte>, opens: bool, writes: bool)
      returns (written: Option<seq<byte>>, direct: seq<byte>, replies: seq<string>)
      requires core.Valid()
      modifies this, core, core.buffer
      ensures core.Valid() && (core.buffer == null || core.buffer == old(core.buffer) || fresh(core.buffer))
      ensures var r := RouteAll(core.cfg, Routing(old(core.Abs()), old(lineBuf), [], [], []), data, opens, writes);
              && core.Abs() == r.core && lineBuf == r.lineBuf && direct == r.direct && replies == r.replies
              && written == if r.sink == [] then None else Some(r.sink)
      ensures writes ==>
                BytesTell(core.cfg, old(core.Abs()), old(lineBuf), data, opens,
                          if written.Some? then written.value else [], core.Abs())
    {
      hide OnRawByte, OnClientLine, IsRealtimeCommand, Flushed, LineText, Lawful, BytesTell, RouteAll;
      ChunkWriteExactly(core.cfg, core.Abs(), lineBuf, data, opens);
      var sink: seq<byte> := [];
      direct, replies := [], [];
      ghost var start := Routing(core.Abs(), lineBuf, [], [], []);
      var i := 0;
      assert data[0..] == data;
      while i < |data|
        invariant 0 <= i <= |data| && core.Valid()
        invariant core.buffer == null || core.buffer == old(core.buffer) || fresh(core.buffer)
        invariant RouteAll(core.cfg, Routing(core.Abs(), lineBuf, sink, direct, replies), data[i..], opens, writes)
               == RouteAll(core.cfg, start, data, opens, writes)
      {
        var b := data[i];
        RouteTurn(core.cfg, Routing(core.Abs(), lineBuf, sink, direct, replies), data, i, opens, writes);
        var consumed, out := core.ProcessRawByte(b, writes);
        sink, direct := sink + Flushed(out.sent, false), direct + Flushed(out.sent, true);
        replies := replies + out.replies;
        if !consumed {
          lineBuf := lineBuf + [b];
          if b == LF {
            var line := LineText(lineBuf);
            lineBuf := [];
            out := core.ProcessClientLine(line, opens, writes);
            sink, direct := sink + Flushed(out.sent, false), direct + Flushed(out.sent, true);
            replies := replies + out.replies;
          }
        }
        i := i + 1;
      }
      RouteTurn(core.cfg, Routing(core.Abs(), lineBuf, sink, direct, replies), data, i, opens, writes);
      written := if sink == [] then None else Some(sink);
    }
  }

  // ----- Passthrough, whatever the chunks --------------------------------------------------

  function Realtime(s: seq<byte>): seq<byte> {
    if s == [] then [] else (if IsRealtimeCommand(s[0]) then [s[0]] else []) + Realtime(s[1..])
  }

  function Plain(s: seq<byte>): seq<byte> {
    if s == [] then [] else (if IsRealtimeCommand(s[0]) then [] else [s[0]]) + Plain(s[1..])
  }

  /** What a stream puts on the serial line, one line of it at a time: its real-time bytes, then
      the line without them, its line end replaced by one LF. */
  function Segmented(s: seq<byte>): seq<byte>
    decreases |s|
  {
    var n := FindLf(s);
    if n == |s| then Realtime(s)
    else Realtime(s[..n]) + StripLineEnd(Plain(s[..n])) + [LF] + Segmented(s[n + 1..])
  }

  /** The bytes after the last LF. */
  function Unfinished(s: seq<byte>): seq<byte>
    decreases |s|
  {
    var n := FindLf(s);
    if n == |s| then s else Unfinished(s[n + 1..])
  }

  /** No complete line of the stream is the start marker. */
  predicate NoStart(c: Settings, s: seq<byte>)
    decreases |s|
  {
    var n := FindLf(s);
    n < |s| ==> !Matches(c.startMarker, LineText(Plain(s[..n]) + [LF])) && NoStart(c, s[n + 1..])
  }

  lemma {:induction false} PlainGrows(s: seq<byte>, b: byte)
    ensures Plain(s + [b]) == Plain(s) + if IsRealtimeCommand(b) then [] else [b]
    ensures Realtime(s + [b]) == Realtime(s) + if IsRealtimeCommand(b) then [b] else []
    decreases |s|
  {
    hide IsRealtimeCommand, Plain, Realtime;
    if s == [] {
      assert s + [b] == [b];
      PlainTurn([b]);
      PlainNone();
      assert [b][1..] == [];
    } else {
      AppendFirst(s, b);
      PlainTurn(s);
      PlainTurn(s + [b]);
      PlainGrows(s[1..], b);
      assert Plain(s + [b]) == Plain(s) + if IsRealtimeCommand(b) then [] else [b];
    }
  }

  lemma PlainTurn(s: seq<byte>)
    requires s != []
    ensures Plain(s) == (if IsRealtimeCommand(s[0]) then [] else [s[0]]) + Plain(s[1..])
    ensures Realtime(s) == (if IsRealtimeCommand(s[0]) then [s[0]] else []) + Realtime(s[1..])
  {
    hide IsRealtimeCommand;
  }

  lemma PlainNone()
    ensures Plain([]) == [] && Realtime([]) == []
  {
  }

  lemma AppendFirst(s: seq<byte>, b: byte)
    requires s != []
    ensures (s + [b])[0] == s[0] && (s + [b])[1..] == s[1..] + [b]
  {
  }

  lemma NoLfNoFind(s: seq<byte>)
    requires LF !in s
    ensures FindLf(s) == |s|
  {
  }

  lemma FirstSegment(s: seq<byte>)
    requires FindLf(s) < |s|
    ensures var n := FindLf(s);
            && Segmented(s) == Realtime(s[..n]) + StripLineEnd(Plain(s[..n])) + [LF] + Segmented(s[n + 1..])
            && Unfinished(s) == Unfinished(s[n + 1..])
  {
  }

  lemma LastSegment(s: seq<byte>)
    requires FindLf(s) == |s|
    ensures Segmented(s) == Realtime(s) && Unfinished(s) == s
  {
  }

  /** What one more byte of the stream adds to the line. */
  function Added(s: seq<byte>, b: byte): seq<byte> {
    if IsRealtimeCommand(b) then [b]
    else if b == LF then StripLineEnd(Plain(Unfinished(s))) + [LF]
    else []
  }

  lemma {:induction false} SegmentedGrows(s: seq<byte>, b: byte)
    ensures Segmented(s + [b]) == Segmented(s) + Added(s, b)
    ensures Unfinished(s + [b]) == if b == LF then [] else Unfinished(s) + [b]
    decreases |s|
  {
    hide IsRealtimeCommand, StripLineEnd, Segmented, Unfinished, Realtime, Plain;
    var n := FindLf(s);
    if n < |s| {
      var t := s[n + 1..];
      SameFirstLine(s, b);
      FirstSegment(s);
      FirstSegment(s + [b]);
      SegmentedGrows(t, b);
      var head := Realtime(s[..n]) + StripLineEnd(Plain(s[..n])) + [LF];
      assert head + (Segmented(t) + Added(t, b)) == (head + Segmented(t)) + Added(t, b);
    } else {
      LastLineGrows(s, b);
    }
  }

  lemma SameFirstLine(s: seq<byte>, b: byte)
    requires FindLf(s) < |s|
    ensures var n, t := FindLf(s), s + [b];
            FindLf(t) == n && t[..n] == s[..n] && t[n + 1..] == s[n + 1..] + [b]
  {
    hide FindLf;
    AppendAfter(s, FindLf(s), b);
    FindLfIn(s + [b], FindLf(s));
  }

  lemma AppendAfter(s: seq<byte>, n: nat, b: byte)
    requires n < |s|
    ensures var t := s + [b]; t[..n] == s[..n] && t[n] == s[n] && t[n + 1..] == s[n + 1..] + [b]
  {
  }

  lemma LastLineGrows(s: seq<byte>, b: byte)
    requires FindLf(s) == |s|
    ensures Segmented(s + [b]) == Segmented(s) + Added(s, b)
    ensures Unfinished(s + [b]) == if b == LF then [] else Unfinished(s) + [b]
  {
    hide IsRealtimeCommand, StripLineEnd, Segmented, Unfinished, Realtime, Plain;
    var n := FindLf(s);
    assert s[..n] == s;
    PlainGrows(s, b);
    LastSegment(s);
    NotRealtime();
    LastSegment([]);
    if b == LF {
      LfAtEnd(s);
      FirstSegment(s + [b]);
      Regroup(Realtime(s), StripLineEnd(Plain(s)), [LF]);
    } else {
      NoLfNoFind(s + [b]);
      LastSegment(s + [b]);
    }
  }

  lemma LfAtEnd(s: seq<byte>)
    requires FindLf(s) == |s|
    ensures var t := s + [LF]; FindLf(t) == |s| && t[..|s|] == s && t[|s| + 1..] == []
  {
    FindLfIn(s + [LF], |s|);
  }

  lemma Regroup(a: seq<byte>, b: seq<byte>, c: seq<byte>)
    ensures a + b + c + [] == a + (b + c)
  {
  }

  lemma NotRealtime()
    ensures !IsRealtimeCommand(LF) && FindLf([]) == 0 && Realtime([]) == []
  {
  }

  /** In Passthrough, routing has put exactly Segmented of the stream so far on the line and
      holds the plain bytes of the unfinished line. */
  ghost predicate InStep(c: Settings, p: Proxy, r: Routing, done: seq<byte>, earlier: seq<byte>) {
    && r.core == p.(serialKnown := r.core.serialKnown)
    && earlier + r.sink == Segmented(done)
    && r.lineBuf == Plain(Unfinished(done))
    && r.direct == [] && r.replies == []
  }

  lemma LineBytes(buf: seq<byte>)
    ensures Encode(LineText(buf)) == StripLineEnd(buf)
  {
  }

  lemma StripLf(buf: seq<byte>)
    ensures StripLineEnd(buf + [LF]) == StripLineEnd(buf)
  {
    assert (buf + [LF])[..|buf|] == buf;
  }

  lemma FlushedOne(s: Sent)
    requires !s.SentConsole? && !s.now
    ensures Flushed([s], false) == BytesOf(s) && Flushed([s], true) == []
  {
    assert [s][1..] == [];
  }

  /** What a byte that ends no line does in Passthrough. */
  lemma ByteRoutes(c: Settings, r: Routing, b: byte, opens: bool)
    requires r.core.state == Passthrough && b != LF
    ensures var core := r.core.(serialKnown := true);
            RouteByte(c, r, b, opens, true)
            == if IsRealtimeCommand(b) then Routing(core, r.lineBuf, r.sink + [b], r.direct, r.replies)
               else Routing(core, r.lineBuf + [b], r.sink, r.direct, r.replies)
  {
    hide IsRealtimeCommand;
    FlushedOne(SentByte(b, false));
    assert r.sink + [] == r.sink && r.direct + [] == r.direct && r.replies + [] == r.replies;
  }

  /** What a line feed does in Passthrough. */
  lemma LineRoutes(c: Settings, r: Routing, opens: bool)
    requires r.core.state == Passthrough && !Matches(c.startMarker, LineText(r.lineBuf + [LF]))
    ensures var core := r.core.(serialKnown := true);
            RouteByte(c, r, LF, opens, true)
            == Routing(core, [], r.sink + (Encode(LineText(r.lineBuf + [LF])) + [LF]), r.direct, r.replies)
  {
    hide LineText, Encode, Matches;
    NotRealtime();
    FlushedOne(SentLine(LineText(r.lineBuf + [LF]), false));
    assert r.sink + [] == r.sink && r.direct + [] == r.direct && r.replies + [] == r.replies;
  }

  lemma ByteInStep(c: Settings, p: Proxy, r: Routing, b: byte, done: seq<byte>, earlier: seq<byte>, opens: bool)
    requires InStep(c, p, r, done, earlier) && p.state == Passthrough && b != LF
    ensures InStep(c, p, RouteByte(c, r, b, opens, true), done + [b], earlier)
  {
    hide StripLineEnd, Segmented, Unfinished, RouteByte, IsRealtimeCommand, Plain;
    SegmentedGrows(done, b);
    PlainGrows(Unfinished(done), b);
    ByteRoutes(c, r, b, opens);
    assert (earlier + r.sink) + [b] == earlier + (r.sink + [b]);
    assert Segmented(done) + [] == Segmented(done) && Plain(Unfinished(done)) + [] == Plain(Unfinished(done));
  }

  lemma LineInStep(c: Settings, p: Proxy, r: Routing, done: seq<byte>, earlier: seq<byte>, opens: bool)
    requires InStep(c, p, r, done, earlier) && p.state == Passthrough
    requires !Matches(c.startMarker, LineText(r.lineBuf + [LF]))
    ensures InStep(c, p, RouteByte(c, r, LF, opens, true), done + [LF], earlier)
  {
    hide StripLineEnd, Segmented, Unfinished, LineText, Encode, Matches, RouteByte, Plain;
    SegmentedGrows(done, LF);
    NotRealtime();
    PlainNone();
    LineRoutes(c, r, opens);
    LineBytes(r.lineBuf + [LF]);
    StripLf(r.lineBuf);
    var line := StripLineEnd(r.lineBuf) + [LF];
    assert (earlier + r.sink) + line == earlier + (r.sink + line);
  }

  lemma {:induction false} NoStartAt(c: Settings, done: seq<byte>, rest: seq<byte>)
    requires NoStart(c, done + [LF] + rest)
    ensures !Matches(c.startMarker, LineText(Plain(Unfinished(done)) + [LF]))
    decreases |done|
  {
    hide Matches, LineText, Plain;
    var s := done + [LF] + rest;
    var n := FindLf(done);
    if n < |done| {
      assert s[..n] == done[..n] && s[n + 1..] == done[n + 1..] + [LF] + rest;
      FindLfIn(s, n);
      NoStartAt(c, done[n + 1..], rest);
    } else {
      assert s[..n] == done && done[..n] == done;
      FindLfIn(s, n);
    }
  }

  lemma {:induction false} ChunkInStep(c: Settings, p: Proxy, r: Routing, data: seq<byte>, done: seq<byte>,
                                       rest: seq<byte>, earlier: seq<byte>, opens: bool)
    requires InStep(c, p, r, done, earlier) && p.state == Passthrough && NoStart(c, done + data + rest)
    ensures InStep(c, p, RouteAll(c, r, data, opens, true), done + data, earlier)
    decreases |data|
  {
    hide InStep, RouteByte, NoStart, Matches, LineText, Plain, Unfinished;
    if data == [] {
      assert done + data == done;
    } else {
      var b := data[0];
      MoveOne(done, data, rest);
      if b == LF {
        NoStartAt(c, done, data[1..] + rest);
        BufferHolds(c, p, r, done, earlier);
        LineInStep(c, p, r, done, earlier, opens);
      } else {
        ByteInStep(c, p, r, b, done, earlier, opens);
      }
      ChunkInStep(c, p, RouteByte(c, r, b, opens, true), data[1..], done + [b], rest, earlier, opens);
    }
  }

  lemma MoveOne(done: seq<byte>, data: seq<byte>, rest: seq<byte>)
    requires data != []
    ensures done + data + rest == done + [data[0]] + (data[1..] + rest) == (done + [data[0]]) + data[1..] + rest
    ensures done + data == (done + [data[0]]) + data[1..]
  {
  }

  lemma BufferHolds(c: Settings, p: Proxy, r: Routing, done: seq<byte>, earlier: seq<byte>)
    requires InStep(c, p, r, done, earlier)
    ensures r.lineBuf == Plain(Unfinished(done))
  {
  }

  // ----- A session of chunks ---------------------------------------------------------------

  function Joined(chunks: seq<seq<byte>>): seq<byte> {
    if chunks == [] then [] else chunks[0] + Joined(chunks[1..])
  }

  /** The serial writes of a session, one for each chunk (empty where a chunk makes none). */
  function SessionWrites(c: Settings, p: Proxy, lineBuf: seq<byte>, chunks: seq<seq<byte>>, opens: bool): seq<seq<byte>>
    decreases |chunks|
  {
    if chunks == [] then []
    else
      var r := RouteAll(c, Routing(p, lineBuf, [], [], []), chunks[0], opens, true);
      [r.sink] + SessionWrites(c, r.core, r.lineBuf, chunks[1..], opens)
  }

  lemma {:induction false} SessionInStep(c: Settings, p: Proxy, q: Proxy, lineBuf: seq<byte>, chunks: seq<seq<byte>>,
                                         done: seq<byte>, opens: bool)
    requires p.state == Passthrough && NoStart(c, done + Joined(chunks))
    requires q == p.(serialKnown := q.serialKnown) && lineBuf == Plain(Unfinished(done))
    ensures Segmented(done) + Joined(SessionWrites(c, q, lineBuf, chunks, opens)) == Segmented(done + Joined(chunks))
    decreases |chunks|
  {
    hide RouteAll, NoStart, Segmented, Plain, Unfinished;
    if chunks == [] {
      assert done + Joined(chunks) == done;
    } else {
      var rest := Joined(chunks[1..]);
      var r0 := Routing(q, lineBuf, [], [], []);
      assert done + chunks[0] + rest == done + (chunks[0] + rest);
      assert Segmented(done) + [] == Segmented(done);
      ChunkInStep(c, p, r0, chunks[0], done, rest, Segmented(done), opens);
      var r := RouteAll(c, r0, chunks[0], opens, true);
      SessionInStep(c, p, r.core, r.lineBuf, chunks[1..], done + chunks[0], opens);
      var tail := SessionWrites(c, r.core, r.lineBuf, chunks[1..], opens);
      assert ([r.sink] + tail)[1..] == tail;
      assert (Segmented(done) + r.sink) + Joined(tail) == Segmented(done) + (r.sink + Joined(tail));
    }
  }

  /** Bytes that are ASCII or real-time commands; others would go through UTF-8 decoding. */
  predicate Undecoded(s: seq<byte>) {
    forall b :: b in s ==> b < 0xa2
  }

  /** Passthrough does not depend on how TCP cut the stream: together the writes, one a chunk at
      most, are Segmented of the whole stream. */
  lemma RoutingIsChunkFree(c: Settings, p: Proxy, chunks: seq<seq<byte>>, opens: bool)
    requires p.state == Passthrough && NoStart(c, Joined(chunks)) && Undecoded(Joined(chunks))
    ensures Joined(SessionWrites(c, p, [], chunks, opens)) == Segmented(Joined(chunks))
    ensures |SessionWrites(c, p, [], chunks, opens)| == |chunks|
  {
    hide NoStart, RouteAll;
    assert [] + Joined(chunks) == Joined(chunks);
    NotRealtime();
    assert Segmented([]) == [] && Unfinished([]) == [] && Plain([]) == [];
    SessionInStep(c, p, p, [], chunks, [], opens);
    WritesPerChunk(c, p, [], chunks, opens);
    var w := SessionWrites(c, p, [], chunks, opens);
    assert [] + Joined(w) == Joined(w);
  }

  lemma {:induction false} WritesPerChunk(c: Settings, p: Proxy, lineBuf: seq<byte>, chunks: seq<seq<byte>>,
                                          opens: bool)
    ensures |SessionWrites(c, p, lineBuf, chunks, opens)| == |chunks|
    decreases |chunks|
  {
    hide RouteAll;
    if chunks == [] {
    } else {
      var r := RouteAll(c, Routing(p, lineBuf, [], [], []), chunks[0], opens, true);
      WritesPerChunk(c, r.core, r.lineBuf, chunks[1..], opens);
    }
  }
}
