/** Whole runs of the de-chunker: every way of cutting the stream into reads, interleaved with calls. */
module DechunkerRuns {
  import opened Bytes
  import opened RtmpCodec
  import opened Dechunker

  /** Bytes arrive in the receive buffer, or ParseData is called. */
  datatype Event = Arrive(bytes: seq<Byte>) | Parse

  function Received(events: seq<Event>): seq<Byte> {
    if events == [] then []
    else (if events[0].Arrive? then events[0].bytes else []) + Received(events[1..])
  }

  function Run(c: Core, buf: seq<Byte>, events: seq<Event>): (r: Outcome)
    requires c.readChunk < RTMP_CHUNK_SIZE
    ensures r.core.readChunk < RTMP_CHUNK_SIZE
    decreases |events|
  {
    if events == [] then Outcome(c, buf, [])
    else
      match events[0]
      case Arrive(bytes) => Run(c, buf + bytes, events[1..])
      case Parse =>
        var r := Call(c, buf);
        var next := Run(r.core, r.rest, events[1..]);
        next.(done := r.done + next.done)
  }

  /** `r` delivers a part of what the reference decoder finds in `input` and leaves exactly the rest to do. */
  predicate Refines(r: Outcome, later: seq<Byte>, whole: Decoded)
    requires r.core.readChunk < RTMP_CHUNK_SIZE
  {
    && r.core.Waiting()
    && whole.messages == r.done + Future(r.core, r.rest + later).messages
    && (whole.contiguous ==> Future(r.core, r.rest + later).contiguous)
  }

  lemma RefinesAfterCall(c: Core, buf: seq<Byte>, more: seq<Byte>, next: Outcome, later: seq<Byte>)
    requires c.Waiting() && next.core.readChunk < RTMP_CHUNK_SIZE
    requires Refines(next, later, Future(Call(c, buf).core, Call(c, buf).rest + more))
    ensures Refines(next.(done := Call(c, buf).done + next.done), later, Future(c, buf + more))
  {
    CallCommutes(c, buf, more);
    var done := Call(c, buf).done;
    assert done + (next.done + Future(next.core, next.rest + later).messages)
        == done + next.done + Future(next.core, next.rest + later).messages;
  }

  /** The invariant of every run: delivered so far, followed by the future of the unread bytes, is the
      reference decoding of everything received, and stays so for whatever is received later. */
  lemma {:induction false} RunRefinesReference(c: Core, buf: seq<Byte>, events: seq<Event>, later: seq<Byte>)
    requires c.Waiting()
    ensures Refines(Run(c, buf, events), later, Future(c, buf + (Received(events) + later)))
    decreases |events|
  {
    hide Call, Future;
    if events == [] {
      assert [] + later == later;
    } else {
      var more := Received(events[1..]);
      match events[0]
      case Arrive(bytes) =>
        RunRefinesReference(c, buf + bytes, events[1..], later);
        assert buf + ((bytes + more) + later) == (buf + bytes) + (more + later);
      case Parse =>
        var r := Call(c, buf);
        assert r.core.Waiting() by {
          CallCommutes(c, buf, []);
        }
        RunRefinesReference(r.core, r.rest, events[1..], later);
        RefinesAfterCall(c, buf, more + later, Run(r.core, r.rest, events[1..]), later);
        assert [] + more == more;
    }
  }

  /** At every moment the messages delivered are a prefix of what the reference decoder finds in the
      bytes received so far; once a call changes nothing any more, they are all of it. */
  lemma DeliveredIsPrefix(c: Core, events: seq<Event>)
    requires c.Waiting()
    ensures var r := Run(c, [], events);
      && r.done <= Future(c, Received(events)).messages
      && (Drained(r.core, r.rest) ==> r.done == Future(c, Received(events)).messages)
  {
    RunRefinesReference(c, [], events, []);
    var r := Run(c, [], events);
    assert [] + (Received(events) + []) == Received(events) && r.rest + [] == r.rest;
    if Drained(r.core, r.rest) {
      DrainedHasNoFuture(r.core, r.rest);
    }
  }

  // ---------------------------------------------------------------- the state does not depend on the cuts either

  /** Takes everything there is in one go: completed messages, what is unread, and where the parser stands. */
  function Settle(c: Core, input: seq<Byte>): Outcome
    requires c.readChunk < RTMP_CHUNK_SIZE
    decreases Distance(c, input)
  {
    var p := if c.inBody then HeaderParse(0, c.header) else ParseHeader(c.header, input);
    if !c.inBody && p.length == 0 then Outcome(c, input, [])
    else
      var r := ParseBody(c.(header := p.header, inBody := true), input[p.length..]);
      if r.core.inBody then r
      else
        var next := Settle(r.core, r.rest);
        next.(done := r.done + next.done)
  }

  /** A part of a chunk, and then the bytes behind it, are the same as both at once. */
  lemma PartThenRest(c: Core, buf: seq<Byte>, ext: seq<Byte>)
    requires c.readChunk < RTMP_CHUNK_SIZE && c.inBody && |buf| < c.Need()
    ensures var r := ParseBody(c, buf);
      && r.core.inBody && r.rest == [] && r.core.readChunk < RTMP_CHUNK_SIZE
      && ParseBody(r.core, ext) == ParseBody(c, buf + ext)
  {
    var r := ParseBody(c, buf);
    if c.ChunkOver() {
      RemainAfter(c.header.Size(), |c.body|, |buf|);
    }
    assert buf == [] ==> r.core == c;
    assert r.core.ChunkOver() == c.ChunkOver();
    var k := r.core.Need();
    assert k == c.Need() - |buf|;
    Regroup3(c.body, buf, ext);
    if |ext| >= k {
      assert (buf + ext)[..c.Need()] == buf + ext[..k] && (buf + ext)[c.Need()..] == ext[k..];
      Regroup3(c.body, buf, ext[..k]);
    }
  }

  lemma WholeThenRest(c: Core, buf: seq<Byte>, ext: seq<Byte>)
    requires c.readChunk < RTMP_CHUNK_SIZE && c.inBody && |buf| >= c.Need()
    ensures var r := ParseBody(c, buf); !r.core.inBody && ParseBody(c, buf + ext) == r.(rest := r.rest + ext)
  {
    SliceWithin(buf, ext, 0, c.Need());
  }

  /** The body step in front of whatever is still to come. */
  lemma BodySettles(c: Core, buf: seq<Byte>, ext: seq<Byte>)
    requires c.readChunk < RTMP_CHUNK_SIZE && c.inBody
    ensures var r, next := ParseBody(c, buf), Settle(ParseBody(c, buf).core, ParseBody(c, buf).rest + ext);
      Settle(c, buf + ext) == next.(done := r.done + next.done)
  {
    hide ParseBody, Core.Need;
    var r := ParseBody(c, buf);
    assert c.(header := c.header, inBody := true) == c && (buf + ext)[0..] == buf + ext;
    if |buf| < c.Need() {
      PartThenRest(c, buf, ext);
      assert [] + ext == ext && ext[0..] == ext && r.core.(header := r.core.header, inBody := true) == r.core;
      assert [] + Settle(r.core, ext).done == Settle(r.core, ext).done;
    } else {
      WholeThenRest(c, buf, ext);
    }
  }

  lemma HeaderSettles(c: Core, buf: seq<Byte>, ext: seq<Byte>)
    requires !c.inBody && c.readChunk == 0 && ParseHeader(c.header, buf).length > 0
    ensures var p := ParseHeader(c.header, buf);
      Settle(c, buf + ext) == Settle(c.(header := p.header, inBody := true), buf[p.length..] + ext)
  {
    var p := ParseHeader(c.header, buf);
    ParseHeaderExtends(c.header, buf, ext);
    SliceWithin(buf, ext, 0, p.length);
    assert (buf[p.length..] + ext)[0..] == buf[p.length..] + ext;
  }

  lemma HeaderHalfSettles(c: Core, buf: seq<Byte>, ext: seq<Byte>)
    requires c.Waiting() && (c.inBody || ParseHeader(c.header, buf).length > 0)
    ensures var p := if c.inBody then HeaderParse(0, c.header) else ParseHeader(c.header, buf);
      Settle(c, buf + ext) == Settle(c.(header := p.header, inBody := true), buf[p.length..] + ext)
  {
    hide Settle, ParseHeader;
    if c.inBody {
      assert c.(header := c.header, inBody := true) == c && buf[0..] == buf;
    } else {
      HeaderSettles(c, buf, ext);
    }
  }

  lemma {:induction false} LoopSettles(c: Core, buf: seq<Byte>, ext: seq<Byte>)
    requires c.Waiting()
    ensures var r := ParseLoop(c, buf);
      && r.core.Waiting()
      && Settle(c, buf + ext) == Settle(r.core, r.rest + ext).(done := r.done + Settle(r.core, r.rest + ext).done)
    decreases Distance(c, buf)
  {
    hide ParseBody, Settle, ParseHeader, Core.Need;
    var p := if c.inBody then HeaderParse(0, c.header) else ParseHeader(c.header, buf);
    if c.inBody || p.length > 0 {
      var c1 := c.(header := p.header, inBody := true);
      HeaderHalfSettles(c, buf, ext);
      BodyCommutes(c1, buf[p.length..], ext);
      BodySettles(c1, buf[p.length..], ext);
      var r := ParseBody(c1, buf[p.length..]);
      if r.done != [] {
        LoopSettles(r.core, r.rest, ext);
        var next := ParseLoop(r.core, r.rest);
        RegroupMessages(r.done, next.done, Settle(next.core, next.rest + ext).done);
      }
    } else {
      assert [] + Settle(c, buf + ext).done == Settle(c, buf + ext).done;
    }
  }

  lemma CallSettles(c: Core, buf: seq<Byte>, ext: seq<Byte>)
    requires c.Waiting()
    ensures var r := Call(c, buf);
      && r.core.Waiting()
      && Settle(c, buf + ext) == Settle(r.core, r.rest + ext).(done := r.done + Settle(r.core, r.rest + ext).done)
  {
    hide Settle;
    if buf == [] {
      assert [] + Settle(c, buf + ext).done == Settle(c, buf + ext).done;
    } else {
      LoopSettles(c, buf, ext);
    }
  }

  /** Where the whole input leads is where every run over a part of it is still going. */
  lemma {:induction false} RunSettles(c: Core, buf: seq<Byte>, events: seq<Event>, later: seq<Byte>)
    requires c.Waiting()
    ensures var r := Run(c, buf, events);
      && r.core.Waiting()
      && Settle(c, buf + (Received(events) + later))
        == Settle(r.core, r.rest + later).(done := r.done + Settle(r.core, r.rest + later).done)
    decreases |events|
  {
    hide Settle, ParseLoop;
    if events == [] {
      assert [] + later == later;
      assert [] + Settle(c, buf + later).done == Settle(c, buf + later).done;
    } else {
      var more := Received(events[1..]);
      match events[0]
      case Arrive(bytes) =>
        RunSettles(c, buf + bytes, events[1..], later);
        assert buf + ((bytes + more) + later) == (buf + bytes) + (more + later);
      case Parse =>
        CallSettles(c, buf, more + later);
        var r := Call(c, buf);
        assert [] + more == more;
        RunSettles(r.core, r.rest, events[1..], later);
        var next := Run(r.core, r.rest, events[1..]);
        var last := Settle(next.core, next.rest + later);
        assert r.done + (next.done + last.done) == r.done + next.done + last.done;
    }
  }

  lemma DrainedIsSettled(c: Core, buf: seq<Byte>)
    requires c.Waiting() && Drained(c, buf)
    ensures Settle(c, buf) == Outcome(c, buf, [])
  {
    assert buf[0..] == buf && c.body + [] == c.body;
  }

  lemma SettledRun(c: Core, events: seq<Event>)
    requires c.Waiting()
    ensures var r := Run(c, [], events);
      Drained(r.core, r.rest) ==> r == Settle(c, Received(events))
  {
    hide Settle;
    RunSettles(c, [], events, []);
    var r := Run(c, [], events);
    assert [] + (Received(events) + []) == Received(events) && r.rest + [] == r.rest;
    if Drained(r.core, r.rest) {
      DrainedIsSettled(r.core, r.rest);
      assert r.done + [] == r.done;
    }
  }

  /** Two runs over the same bytes, cut differently, once both are drained: they have delivered the same
      messages and left the same bytes unread, and the parser stands at the same place, so that they go
      on alike for every continuation. */
  lemma CutsDoNotMatter(c: Core, events: seq<Event>, events': seq<Event>)
    requires c.Waiting() && Received(events) == Received(events')
    requires var r, r' := Run(c, [], events), Run(c, [], events');
      Drained(r.core, r.rest) && Drained(r'.core, r'.rest)
    ensures Run(c, [], events) == Run(c, [], events')
  {
    SettledRun(c, events);
    SettledRun(c, events');
  }

  /** Repeating the call until nothing changes. */
  function Drain(c: Core, buf: seq<Byte>): (r: Outcome)
    requires c.Waiting()
    ensures r.core.Waiting()
    decreases Distance(c, buf)
  {
    var r := Call(c, buf);
    CallMakesProgress(c, buf);
    CallCommutes(c, buf, []);
    if Drained(c, buf) then r
    else
      var next := Drain(r.core, r.rest);
      next.(done := r.done + next.done)
  }

  /** Draining terminates in a standstill and has then delivered everything the bytes contain. */
  lemma {:induction false} DrainDeliversAll(c: Core, buf: seq<Byte>)
    requires c.Waiting()
    ensures var r := Drain(c, buf);
      && Drained(r.core, r.rest)
      && r.done == Future(c, buf).messages
    decreases Distance(c, buf)
  {
    var r := Call(c, buf);
    CallMakesProgress(c, buf);
    CallCommutes(c, buf, []);
    assert buf + [] == buf && r.rest + [] == r.rest;
    if Drained(c, buf) {
      DrainedHasNoFuture(c, buf);
    } else {
      DrainDeliversAll(r.core, r.rest);
    }
  }

  // ---------------------------------------------------------------- what a single call leaves waiting

  /** A round of the loop completes a chunk but no message, and the next header is there. Then the call
      stops with bytes unread that another call would take: behind every full chunk that is not the last
      of its message, and behind every message of size 0. */
  predicate Pauses(c: Core, buf: seq<Byte>)
    requires c.readChunk < RTMP_CHUNK_SIZE
    decreases Distance(c, buf)
  {
    var p := if c.inBody then HeaderParse(0, c.header) else ParseHeader(c.header, buf);
    (c.inBody || p.length > 0) &&
      var r := ParseBody(c.(header := p.header, inBody := true), buf[p.length..]);
      if r.done != [] then Pauses(r.core, r.rest)
      else !r.core.inBody && ParseHeader(r.core.header, r.rest).length > 0
  }

  /** Between two messages a call changes nothing if and only if no header is there. */
  lemma DrainedBetween(c: Core, buf: seq<Byte>)
    requires c.readChunk == 0 && !c.inBody
    ensures Drained(c, buf) <==> ParseHeader(c.header, buf).length == 0
  {
  }

  /** Where a round ends that completes no message. */
  lemma RoundEnds(c: Core, buf: seq<Byte>)
    requires c.readChunk < RTMP_CHUNK_SIZE && c.inBody && ParseBody(c, buf).done == []
    ensures var r := ParseBody(c, buf);
      Drained(r.core, r.rest) <==> r.core.inBody || ParseHeader(r.core.header, r.rest).length == 0
  {
    var r := ParseBody(c, buf);
    if r.core.inBody {
      assert r.rest == [];
    } else {
      DrainedBetween(r.core, r.rest);
    }
  }

  lemma CompletedIsOut(c: Core, buf: seq<Byte>)
    requires c.readChunk < RTMP_CHUNK_SIZE && c.inBody && ParseBody(c, buf).done != []
    ensures !ParseBody(c, buf).core.inBody
  {
  }

  lemma {:induction false} LoopDrainsIff(c: Core, buf: seq<Byte>)
    requires c.Waiting() && (c.inBody ==> buf != [])
    ensures var r := ParseLoop(c, buf); Drained(r.core, r.rest) <==> !Pauses(c, buf)
    decreases Distance(c, buf)
  {
    hide ParseBody, Drained;
    var p := if c.inBody then HeaderParse(0, c.header) else ParseHeader(c.header, buf);
    if c.inBody || p.length > 0 {
      var c1 := c.(header := p.header, inBody := true);
      BodyCommutes(c1, buf[p.length..], []);
      var r := ParseBody(c1, buf[p.length..]);
      if r.done == [] {
        RoundEnds(c1, buf[p.length..]);
      } else {
        CompletedIsOut(c1, buf[p.length..]);
        LoopDrainsIff(r.core, r.rest);
      }
    } else {
      DrainedBetween(c, buf);
    }
  }

  lemma {:induction false} RunAppend(c: Core, buf: seq<Byte>, a: seq<Event>, b: seq<Event>)
    requires c.readChunk < RTMP_CHUNK_SIZE
    ensures var p := Run(c, buf, a);
      var q := Run(p.core, p.rest, b);
      Run(c, buf, a + b) == q.(done := p.done + q.done)
    decreases |a|
  {
    hide Call;
    if a == [] {
      assert a + b == b && [] + Run(c, buf, b).done == Run(c, buf, b).done;
    } else {
      assert (a + b)[0] == a[0] && (a + b)[1..] == a[1..] + b;
      match a[0]
      case Arrive(bytes) => RunAppend(c, buf + bytes, a[1..], b);
      case Parse =>
        var r := Call(c, buf);
        RunAppend(r.core, r.rest, a[1..], b);
        var p := Run(r.core, r.rest, a[1..]);
        assert r.done + (p.done + Run(p.core, p.rest, b).done) == r.done + p.done + Run(p.core, p.rest, b).done;
    }
  }

  lemma {:induction false} ReceivedAppend(a: seq<Event>, b: seq<Event>)
    ensures Received(a + b) == Received(a) + Received(b)
  {
    if a == [] {
      assert a + b == b;
    } else {
      assert (a + b)[0] == a[0] && (a + b)[1..] == a[1..] + b;
      ReceivedAppend(a[1..], b);
    }
  }

  /** The call behind a read, at the end of any run: it leaves nothing that another call would take, and
      everything the bytes contain is delivered, if and only if it does not pause. */
  lemma ReadDrainsIff(c: Core, events: seq<Event>, bytes: seq<Byte>)
    requires c.Waiting() && bytes != []
    ensures var p, r := Run(c, [], events), Run(c, [], events + [Arrive(bytes), Parse]);
      && (Drained(r.core, r.rest) <==> !Pauses(p.core, p.rest + bytes))
      && (!Pauses(p.core, p.rest + bytes) ==> r.done == Future(c, Received(events) + bytes).messages)
  {
    hide Future, Drained, Pauses, ParseLoop;
    var p := Run(c, [], events);
    RunRefinesReference(c, [], events, []);
    RunAppend(c, [], events, [Arrive(bytes), Parse]);
    assert [Arrive(bytes), Parse][1..] == [Parse] && [Parse][1..] == [];
    LoopDrainsIff(p.core, p.rest + bytes);
    DeliveredIsPrefix(c, events + [Arrive(bytes), Parse]);
    ReceivedAppend(events, [Arrive(bytes), Parse]);
    assert bytes + [] == bytes;
  }

  /** It does leave messages waiting: the last byte of a message of 4097 is there, and is not taken. */
  lemma PauseLeavesMessage(h: PackHeader)
    requires h.Size() == 4097
    ensures var c, buf := Core(h, [], true, 0), seq(4096, _ => 0) + [0xc4, 7];
      && Pauses(c, buf) && Call(c, buf).done == [] && Call(c, buf).rest == [0xc4, 7]
      && Future(c, buf).messages == [Message(h, seq(4096, _ => 0) + [7])]
  {
    var zeros: seq<Byte> := seq(4096, _ => 0);
    var c, buf := Core(h, [], true, 0), zeros + [0xc4, 7];
    FrontAndRest(zeros, [0xc4, 7]);
    var r := ParseBody(c, buf);
    assert [] + zeros == zeros;
    assert r == Outcome(Core(h, zeros, false, 0), [0xc4, 7], []);
    var p := ParseHeader(h, [0xc4, 7]);
    assert p == HeaderParse(1, h) && [0xc4, 7][1..] == [7];
    assert Remain(4097, 4096) == 1;
    CallCommutes(c, buf, []);
    assert buf + [] == buf && [0xc4, 7] + [] == [0xc4, 7];
    var last: seq<Byte> := [7];
    assert last[..1] == last && last[1..] == [];
    assert ReferenceChunk(h, zeros, 1, true, last).messages
        == [Message(h, zeros + last)] + Reference(h, [], []).messages;
    assert Reference(h, zeros, [0xc4, 7]).messages == ReferenceChunk(h, zeros, 1, true, last).messages;
  }

  // ---------------------------------------------------------------- the chunk invariant

  /** Inside a message nothing has wrapped: what was received fits the announced size, and chunk
      boundaries fall on multiples of 4096 body bytes. */
  predicate Unwrapped(c: Core) {
    && c.Waiting()
    && (c.inBody ==> |c.body| <= c.header.Size())
    && (c.inBody && c.readChunk > 0 ==> c.Remaining() + c.readChunk > RTMP_CHUNK_SIZE)
    && (c.inBody && !c.ChunkOver() ==> (|c.body| - c.readChunk) % RTMP_CHUNK_SIZE == 0)
    && (!c.inBody ==> |c.body| % RTMP_CHUNK_SIZE == 0)
  }

  lemma NextBoundary(received: nat, offset: nat)
    requires offset < RTMP_CHUNK_SIZE && (received - offset) % RTMP_CHUNK_SIZE == 0
    ensures (received + (RTMP_CHUNK_SIZE - offset)) % RTMP_CHUNK_SIZE == 0
  {
  }

  /** In the last chunk of a message. */
  lemma LastChunkKeepsUnwrapped(c: Core, buf: seq<Byte>)
    requires c.inBody && c.ChunkOver() && |c.body| <= c.header.Size()
    ensures var r := ParseBody(c, buf);
      && Unwrapped(r.core)
      && forall m :: m in r.done ==> m.Sized()
  {
  }

  /** In a chunk that is not the last. */
  lemma InnerChunkKeepsUnwrapped(c: Core, buf: seq<Byte>)
    requires c.readChunk < RTMP_CHUNK_SIZE && c.inBody && !c.ChunkOver()
    requires |c.body| <= c.header.Size() && c.Remaining() + c.readChunk > RTMP_CHUNK_SIZE
    requires (|c.body| - c.readChunk) % RTMP_CHUNK_SIZE == 0
    ensures var r := ParseBody(c, buf); Unwrapped(r.core) && r.done == []
  {
    var k, n := RTMP_CHUNK_SIZE - c.readChunk, |c.body|;
    assert c.Remaining() == c.header.Size() - n;
    if |buf| < k {
      var d := ParseBody(c, buf).core;
      assert |d.body| == n + |buf| && d.readChunk == c.readChunk + |buf|;
      assert |d.body| - d.readChunk == n - c.readChunk;
    } else {
      NextBoundary(n, c.readChunk);
    }
  }

  /** The body step keeps the invariant on every input, and a message it completes has exactly its announced size. */
  lemma BodyKeepsUnwrapped(c: Core, buf: seq<Byte>)
    requires c.readChunk < RTMP_CHUNK_SIZE && c.inBody
    requires |c.body| <= c.header.Size()
    requires c.readChunk > 0 ==> c.Remaining() + c.readChunk > RTMP_CHUNK_SIZE
    requires !c.ChunkOver() ==> (|c.body| - c.readChunk) % RTMP_CHUNK_SIZE == 0
    ensures var r := ParseBody(c, buf);
      && Unwrapped(r.core)
      && forall m :: m in r.done ==> m.Sized()
  {
    if c.ChunkOver() {
      LastChunkKeepsUnwrapped(c, buf);
    } else {
      InnerChunkKeepsUnwrapped(c, buf);
    }
  }

  /** It does wrap: 4096 bytes into a message of 8192, a full header announcing 5 bytes leaves 4294963205 to go. */
  lemma SmallerHeaderWraps(h: PackHeader)
    requires h.Size() == 8192
    ensures var body := seq(4096, _ => 0);
      var header := [0x44, 0, 0, 0, 0, 0, 5, 9];
      var c := ParseBody(Core(h, [], true, 0), body).core;
      var r := Call(c, header);
      && Unwrapped(c) && !Unwrapped(r.core)
      && r.core.Remaining() == 4294963205
      && !Future(c, header).contiguous
  {
    var body := seq(4096, _ => 0);
    var header := [0x44, 0, 0, 0, 0, 0, 5, 9];
    var c := ParseBody(Core(h, [], true, 0), body).core;
    assert c.body == body;
    var p := ParseHeader(c.header, header);
    assert p.length == 8 && p.header.Size() == 5;
    var r := ParseBody(c.(header := p.header, inBody := true), header[8..]);
    assert r.core.body == body;
  }

  /** On a contiguous stream every call keeps the invariant, and every message has its announced size. */
  lemma {:induction false} LoopKeepsUnwrapped(c: Core, buf: seq<Byte>)
    requires Unwrapped(c) && Future(c, buf).contiguous
    ensures var r := ParseLoop(c, buf);
      && Unwrapped(r.core)
      && forall m :: m in r.done ==> m.Sized()
    decreases Distance(c, buf)
  {
    var p := if c.inBody then HeaderParse(0, c.header) else ParseHeader(c.header, buf);
    if c.inBody || p.length > 0 {
      var c1 := c.(header := p.header, inBody := true);
      assert buf + [] == buf && buf[p.length..] + [] == buf[p.length..];
      if !c.inBody {
        HeaderCommutes(c, buf, []);
      } else {
        assert c1 == c && buf[0..] == buf;
      }
      BodyKeepsUnwrapped(c1, buf[p.length..]);
      BodyCommutes(c1, buf[p.length..], []);
      var r := ParseBody(c1, buf[p.length..]);
      assert r.rest + [] == r.rest;
      if r.done != [] {
        LoopKeepsUnwrapped(r.core, r.rest);
      }
    }
  }

  lemma {:induction false} ReferenceContiguousSoFar(h: PackHeader, partial: seq<Byte>, input: seq<Byte>,
                                                    more: seq<Byte>)
    requires Reference(h, partial, input + more).contiguous
    ensures Reference(h, partial, input).contiguous
    decreases |input|
  {
    var p := ParseHeader(h, input);
    if p.length > 0 {
      ParseHeaderExtends(h, input, more);
      var rest := input[p.length..];
      assert (input + more)[p.length..] == rest + more;
      var remain := Remain(p.header.Size(), |partial|);
      var n := Min(remain, RTMP_CHUNK_SIZE);
      if n <= |rest| {
        assert (rest + more)[..n] == rest[..n] && (rest + more)[n..] == rest[n..] + more;
        var body := partial + rest[..n];
        ReferenceContiguousSoFar(p.header,
          if remain <= RTMP_CHUNK_SIZE && p.header.Size() > 0 then [] else body, rest[n..], more);
      }
    }
  }

  lemma ContiguousSoFar(c: Core, buf: seq<Byte>, more: seq<Byte>)
    requires c.Waiting() && Future(c, buf + more).contiguous
    ensures Future(c, buf).contiguous
  {
    if c.inBody {
      var n := c.Need();
      if n <= |buf| {
        assert (buf + more)[..n] == buf[..n] && (buf + more)[n..] == buf[n..] + more;
        var body := c.body + buf[..n];
        ReferenceContiguousSoFar(c.header, if c.ChunkOver() && c.header.Size() > 0 then [] else body, buf[n..], more);
      }
    } else {
      ReferenceContiguousSoFar(c.header, c.body, buf, more);
    }
  }

  /** Every run over a contiguous stream, however it is cut. */
  lemma {:induction false} RunKeepsUnwrapped(c: Core, buf: seq<Byte>, events: seq<Event>)
    requires Unwrapped(c) && Future(c, buf + Received(events)).contiguous
    ensures var r := Run(c, buf, events);
      && Unwrapped(r.core)
      && forall m :: m in r.done ==> m.Sized()
    decreases |events|
  {
    if events != [] {
      var more := Received(events[1..]);
      match events[0]
      case Arrive(bytes) =>
        assert buf + (bytes + more) == buf + bytes + more;
        RunKeepsUnwrapped(c, buf + bytes, events[1..]);
      case Parse =>
        assert [] + more == more;
        CallCommutes(c, buf, more);
        ContiguousSoFar(c, buf, more);
        if buf != [] {
          LoopKeepsUnwrapped(c, buf);
        }
        var r := Call(c, buf);
        RunKeepsUnwrapped(r.core, r.rest, events[1..]);
    }
  }

  /** `remain_size` is what is left of the message. */
  predicate ExactRemainder(h: PackHeader, received: nat) {
    received + Remain(h.Size(), received) == h.Size()
  }

  /** A header inside a message keeps the remainder exact if and only if it announces no less than was
      already received; otherwise it wraps. */
  lemma HeaderKeepsRemainder(c: Core, buf: seq<Byte>)
    ensures var h := ParseHeader(c.header, buf).header; ExactRemainder(h, |c.body|) <==> |c.body| <= h.Size()
  {
  }

  /** Behind every header that the call takes the remainder is exact. */
  predicate LoopExact(c: Core, buf: seq<Byte>)
    requires c.readChunk < RTMP_CHUNK_SIZE
    decreases Distance(c, buf)
  {
    var p := if c.inBody then HeaderParse(0, c.header) else ParseHeader(c.header, buf);
    if !c.inBody && p.length == 0 then true
    else
      var r := ParseBody(c.(header := p.header, inBody := true), buf[p.length..]);
      && (!c.inBody ==> ExactRemainder(p.header, |c.body|))
      && (r.done != [] ==> LoopExact(r.core, r.rest))
  }

  /** And behind every header of a whole run. */
  predicate RunExact(c: Core, buf: seq<Byte>, events: seq<Event>)
    requires c.readChunk < RTMP_CHUNK_SIZE
    decreases |events|
  {
    events == [] ||
      match events[0]
      case Arrive(bytes) => RunExact(c, buf + bytes, events[1..])
      case Parse => (buf != [] ==> LoopExact(c, buf)) && RunExact(Call(c, buf).core, Call(c, buf).rest, events[1..])
  }

  /** A call splits contiguity into what it has seen and what is still to come. */
  lemma {:induction false} LoopSplitsContiguity(c: Core, buf: seq<Byte>, ext: seq<Byte>)
    requires c.Waiting()
    ensures var r := ParseLoop(c, buf);
      && r.core.Waiting()
      && (Future(c, buf + ext).contiguous <==> LoopExact(c, buf) && Future(r.core, r.rest + ext).contiguous)
    decreases Distance(c, buf)
  {
    hide ParseBody, Future, ExactRemainder;
    var p := if c.inBody then HeaderParse(0, c.header) else ParseHeader(c.header, buf);
    if c.inBody || p.length > 0 {
      var c1 := c.(header := p.header, inBody := true);
      if !c.inBody {
        HeaderCommutes(c, buf, ext);
        HeaderKeepsRemainder(c, buf);
      } else {
        assert c1 == c && buf[0..] == buf;
      }
      BodyCommutes(c1, buf[p.length..], ext);
      var r := ParseBody(c1, buf[p.length..]);
      if r.done != [] {
        LoopSplitsContiguity(r.core, r.rest, ext);
      }
    }
  }

  lemma {:induction false} RunSplitsContiguity(c: Core, buf: seq<Byte>, events: seq<Event>, later: seq<Byte>)
    requires c.Waiting()
    ensures var r := Run(c, buf, events);
      && r.core.Waiting()
      && (Future(c, buf + (Received(events) + later)).contiguous
          <==> RunExact(c, buf, events) && Future(r.core, r.rest + later).contiguous)
    decreases |events|
  {
    hide Future, LoopExact;
    if events == [] {
      assert [] + later == later;
    } else {
      var more := Received(events[1..]);
      match events[0]
      case Arrive(bytes) =>
        RunSplitsContiguity(c, buf + bytes, events[1..], later);
        assert buf + ((bytes + more) + later) == (buf + bytes) + (more + later);
      case Parse =>
        var r := Call(c, buf);
        assert [] + more == more;
        if buf != [] {
          LoopSplitsContiguity(c, buf, more + later);
        }
        RunSplitsContiguity(r.core, r.rest, events[1..], later);
    }
  }

  lemma DrainedIsContiguous(c: Core, buf: seq<Byte>)
    requires c.Waiting() && Drained(c, buf)
    ensures Future(c, buf).contiguous
  {
  }

  /** In a drained run the remainder never wrapped if and only if the bytes received are a contiguous
      stream: no header inside a message announces less than was received of it. */
  lemma ExactIffContiguous(c: Core, events: seq<Event>)
    requires c.Waiting()
    ensures var r := Run(c, [], events);
      Drained(r.core, r.rest) ==> (RunExact(c, [], events) <==> Future(c, Received(events)).contiguous)
  {
    RunSplitsContiguity(c, [], events, []);
    var r := Run(c, [], events);
    assert [] + (Received(events) + []) == Received(events) && r.rest + [] == r.rest;
    if Drained(r.core, r.rest) {
      DrainedIsContiguous(r.core, r.rest);
    }
  }

  // ---------------------------------------------------------------- the receive window

  /** A call on a full receive window of 4096 bytes, or less, always leaves room for the next read. */
  lemma {:induction false} CallLeavesRoom(c: Core, buf: seq<Byte>)
    requires c.Waiting() && |buf| <= RTMP_CHUNK_SIZE
    ensures |Call(c, buf).rest| < RTMP_CHUNK_SIZE
    decreases Distance(c, buf)
  {
    if buf != [] {
      var p := if c.inBody then HeaderParse(0, c.header) else ParseHeader(c.header, buf);
      if c.inBody || p.length > 0 {
        var c1 := c.(header := p.header, inBody := true);
        var r := ParseBody(c1, buf[p.length..]);
        BodyCommutes(c1, buf[p.length..], []);
        if r.done != [] && r.rest != [] {
          CallLeavesRoom(r.core, r.rest);
        }
      }
    }
  }

  // ---------------------------------------------------------------- conservation

  function BodyBytes(done: seq<Message>): nat {
    if done == [] then 0 else |done[0].body| + BodyBytes(done[1..])
  }

  /** The header bytes that a call consumes. */
  function HeaderBytes(c: Core, buf: seq<Byte>): nat
    requires c.readChunk < RTMP_CHUNK_SIZE
    decreases Distance(c, buf)
  {
    var p := if c.inBody then HeaderParse(0, c.header) else ParseHeader(c.header, buf);
    if !c.inBody && p.length == 0 then 0
    else
      var r := ParseBody(c.(header := p.header, inBody := true), buf[p.length..]);
      p.length + if r.done == [] then 0 else HeaderBytes(r.core, r.rest)
  }

  /** The body step moves bytes from the buffer to the body or to the completed message. */
  lemma BodyConservesBytes(c: Core, buf: seq<Byte>)
    requires c.readChunk < RTMP_CHUNK_SIZE && c.inBody
    ensures var r := ParseBody(c, buf);
      |c.body| + |buf| == |r.rest| + |r.core.body| + if r.done == [] then 0 else |r.done[0].body|
    ensures ParseBody(c, buf).done != [] ==> ParseBody(c, buf).core.body == []
  {
  }

  lemma FirstBody(done: seq<Message>, more: seq<Message>)
    requires |done| == 1
    ensures BodyBytes(done) == |done[0].body| && BodyBytes(done + more) == |done[0].body| + BodyBytes(more)
  {
    assert done[1..] == [] && (done + more)[1..] == more;
  }

  /** Every byte a call takes from the buffer is a header byte, a byte of a completed body, or a byte
      of the body being assembled. */
  lemma {:induction false} CallConservesBytes(c: Core, buf: seq<Byte>)
    requires c.Waiting()
    ensures var r := ParseLoop(c, buf);
      |c.body| + |buf| - |r.rest| == HeaderBytes(c, buf) + BodyBytes(r.done) + |r.core.body|
    decreases Distance(c, buf)
  {
    hide ParseBody, ParseHeader, Core.Need;
    var p := if c.inBody then HeaderParse(0, c.header) else ParseHeader(c.header, buf);
    if c.inBody || p.length > 0 {
      var c1 := c.(header := p.header, inBody := true);
      BodyCommutes(c1, buf[p.length..], []);
      BodyConservesBytes(c1, buf[p.length..]);
      var r := ParseBody(c1, buf[p.length..]);
      if r.done != [] {
        CallConservesBytes(r.core, r.rest);
        FirstBody(r.done, ParseLoop(r.core, r.rest).done);
      }
    }
  }

  lemma {:induction false} BodyBytesAppend(a: seq<Message>, b: seq<Message>)
    ensures BodyBytes(a + b) == BodyBytes(a) + BodyBytes(b)
  {
    if a == [] {
      assert a + b == b;
    } else {
      assert (a + b)[0] == a[0] && (a + b)[1..] == a[1..] + b;
      BodyBytesAppend(a[1..], b);
    }
  }

  /** The header bytes that all calls of a run consume. */
  function RunHeaderBytes(c: Core, buf: seq<Byte>, events: seq<Event>): nat
    requires c.readChunk < RTMP_CHUNK_SIZE
    decreases |events|
  {
    if events == [] then 0
    else
      match events[0]
      case Arrive(bytes) => RunHeaderBytes(c, buf + bytes, events[1..])
      case Parse =>
        var r := Call(c, buf);
        (if buf == [] then 0 else HeaderBytes(c, buf)) + RunHeaderBytes(r.core, r.rest, events[1..])
  }

  /** Over every run: every byte received is a header byte, a byte of a delivered body, a byte of the body
      being assembled, or still unread. */
  lemma {:induction false} RunConservesBytes(c: Core, buf: seq<Byte>, events: seq<Event>)
    requires c.Waiting()
    ensures var r := Run(c, buf, events);
      |c.body| + |buf| + |Received(events)|
        == RunHeaderBytes(c, buf, events) + BodyBytes(r.done) + |r.core.body| + |r.rest|
    decreases |events|
  {
    if events != [] {
      match events[0]
      case Arrive(bytes) => RunConservesBytes(c, buf + bytes, events[1..]);
      case Parse =>
        var r := Call(c, buf);
        CallCommutes(c, buf, []);
        if buf != [] {
          CallConservesBytes(c, buf);
        }
        RunConservesBytes(r.core, r.rest, events[1..]);
        BodyBytesAppend(r.done, Run(r.core, r.rest, events[1..]).done);
    }
  }
}
