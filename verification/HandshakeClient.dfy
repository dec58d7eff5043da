/**
 The other end of the handshake: a client that sends C0/C1, C2 and six messages, or the fixed C3 packet
 in the place of createStream. What the server makes of these bytes, however they are cut.
 */
module HandshakeClients {
  import opened Bytes
  import opened Chunker
  import opened Format
  import opened Handshake
  import opened RtmpCodec

  /** Each message comes in one piece with a full header; `c3` stands in for the fifth of them. */
  datatype Client = Client(c01: seq<Byte>, c2: seq<Byte>, messages: seq<Message>, choices: seq<Choice>,
                           c3: Option<seq<Byte>>) {
    predicate Valid() {
      && |c01| == 1 + 1536 && |c2| == 1536 && |messages| == |choices| == 6
      && (forall i :: 0 <= i < 6 ==> Unsplit(messages[i], choices[i]))
      && (c3.Some? ==> |c3.value| == 26 && c3.value[0] == 0xc3)
    }

    /** What the state of rank `k` waits for. */
    function Piece(k: nat): seq<Byte>
      requires Valid() && k < 8
    {
      if k == 0 then c01
      else if k == 1 then c2
      else if k == 6 && c3.Some? then c3.value
      else PrintUnsplit(messages[k - 2], choices[k - 2])
    }

    /** What is still to come when that state is reached. */
    function Due(k: nat): seq<Byte>
      requires Valid() && k <= 8
      decreases 8 - k
    {
      if k == 8 then [] else Piece(k) + Due(k + 1)
    }

    function Bytes(): seq<Byte>
      requires Valid()
    {
      Due(0)
    }

    /** No message is longer than the receive window. */
    predicate Fits()
      requires Valid()
    {
      forall k :: 2 <= k < 8 ==> |Piece(k)| <= WINDOW
    }
  }

  // ---------------------------------------------------------------- one step

  /** A message state takes exactly one printed message; its first byte is never taken for the C3 packet. */
  lemma MessageStep(s: Shake, m: Message, choice: Choice, rest: seq<Byte>, pack: PackHeader)
    requires 2 <= Rank(s) < 8 && Unsplit(m, choice)
    ensures var buf := PrintUnsplit(m, choice) + rest;
      Step(s, buf, pack) == StepResult(s, NextOf(s), rest) && !IsC3(s, buf)
  {
    hide ParseHeader;
    var header, buf := PrintHeader(m, choice), PrintUnsplit(m, choice) + rest;
    FullHeader(pack, m, choice, rest);
    ParseMessageNeverFails(pack, buf);
    assert buf[0] == choice.fmt * 64 + choice.csid;
    FrontAndRest(PrintUnsplit(m, choice), rest);
  }

  /** A part of a message is not taken. */
  lemma PartOfMessageWaits(s: Shake, m: Message, choice: Choice, k: nat, pack: PackHeader)
    requires 2 <= Rank(s) < 8 && Unsplit(m, choice) && k < |PrintUnsplit(m, choice)|
    ensures var buf := PrintUnsplit(m, choice)[..k];
      Step(s, buf, pack) == StepResult(DataNotEnough, s, buf) && !IsC3(s, buf)
  {
    hide ParseHeader;
    var printed := PrintUnsplit(m, choice);
    var buf := printed[..k];
    FullHeader(pack, m, choice, []);
    assert printed + [] == printed == buf + printed[k..];
    ParseMessageNeverFails(pack, buf);
    if ParseHeader(pack, buf).length > 0 {
      ParseHeaderExtends(pack, buf, printed[k..]);
    }
    assert k > 0 ==> buf[0] == choice.fmt * 64 + choice.csid;
  }

  /** The C3 packet is met in part. */
  predicate ShortC3(s: Shake, buf: seq<Byte>) {
    IsC3(s, buf) && |buf| < CREATE_STREAM_C3_LENGTH
  }

  lemma PieceTaken(client: Client, s: Shake, rest: seq<Byte>, pack: PackHeader)
    requires client.Valid() && Rank(s) < 8
    ensures var piece := client.Piece(Rank(s));
      Step(s, piece + rest, pack) == StepResult(s, NextOf(s), rest) && !ShortC3(s, piece + rest) && piece != []
  {
    var piece := client.Piece(Rank(s));
    FrontAndRest(piece, rest);
    if 2 <= Rank(s) && !(Rank(s) == 6 && client.c3.Some?) {
      MessageStep(s, client.messages[Rank(s) - 2], client.choices[Rank(s) - 2], rest, pack);
    } else if 2 <= Rank(s) {
      assert (piece + rest)[0] == piece[0];
      C3IsTaken(s, piece + rest, pack);
    }
  }

  lemma PartOfPiece(client: Client, s: Shake, k: nat, pack: PackHeader)
    requires client.Valid() && Rank(s) < 8 && k < |client.Piece(Rank(s))|
    ensures var buf := client.Piece(Rank(s))[..k];
      && (ShortC3(s, buf) <==> client.c3.Some? && s == CreateStream && k > 0)
      && (!ShortC3(s, buf) ==> Step(s, buf, pack) == StepResult(DataNotEnough, s, buf))
      && (ShortC3(s, buf) ==> Step(s, buf, pack) == StepResult(s, Publish, []))
  {
    var buf := client.Piece(Rank(s))[..k];
    if 2 <= Rank(s) && !(Rank(s) == 6 && client.c3.Some?) {
      PartOfMessageWaits(s, client.messages[Rank(s) - 2], client.choices[Rank(s) - 2], k, pack);
    } else if 2 <= Rank(s) {
      if k > 0 {
        C3IsTaken(s, buf, pack);
      } else {
        ParseMessageNeverFails(pack, buf);
      }
    }
  }

  /** The unread bytes and the bytes to come are what the state still waits for. */
  predicate Aligned(client: Client, tail: seq<Byte>, s: Shake, buf: seq<Byte>, ext: seq<Byte>)
    requires client.Valid()
  {
    Rank(s) <= 8 && buf + ext == client.Due(Rank(s)) + tail
  }

  /** Unread bytes in line either start with the whole piece or are a part of it. */
  lemma FrontOfPiece(buf: seq<Byte>, ext: seq<Byte>, piece: seq<Byte>, due: seq<Byte>, tail: seq<Byte>)
    requires buf + ext == piece + due + tail
    ensures if |buf| >= |piece| then buf == piece + buf[|piece|..] && buf[|piece|..] + ext == due + tail
            else buf == piece[..|buf|]
  {
    Regroup3(piece, due, tail);
    assert forall i :: 0 <= i < |buf| ==> buf[i] == (buf + ext)[i];
    assert forall i :: 0 <= i < |piece| ==> piece[i] == (piece + (due + tail))[i];
    if |buf| >= |piece| {
      SliceWithin(buf, ext, 0, |piece|);
      FrontAndRest(piece, due + tail);
    }
  }

  lemma DueIs(client: Client, k: nat)
    requires client.Valid() && k <= 8
    ensures client.Due(k) == if k == 8 then [] else client.Piece(k) + client.Due(k + 1)
  {
  }

  /** One step on bytes in line: the whole piece is taken, and what remains is in line; or the piece is
      incomplete and nothing happens, except for the C3 packet, which is taken in part. */
  lemma StepInLine(client: Client, tail: seq<Byte>, s: Shake, buf: seq<Byte>, ext: seq<Byte>, pack: PackHeader)
    requires client.Valid() && Rank(s) < 8 && Aligned(client, tail, s, buf, ext)
    ensures var r, n := Step(s, buf, pack), |client.Piece(Rank(s))|;
      && (|buf| >= n > 0 ==> r == StepResult(s, NextOf(s), buf[n..]) && Aligned(client, tail, NextOf(s), buf[n..], ext))
      && (|buf| < n && !ShortC3(s, buf) ==> r == StepResult(DataNotEnough, s, buf))
      && (ShortC3(s, buf) ==> r == StepResult(s, Publish, []) && !Aligned(client, tail, Publish, [], ext))
      && (ShortC3(s, buf) <==> client.c3.Some? && s == CreateStream && 0 < |buf| < n) && n > 0
  {
    hide Step, Client.Due, Client.Piece, Client.Valid;
    var piece, due := client.Piece(Rank(s)), client.Due(Rank(s) + 1);
    DueIs(client, Rank(s));
    FrontOfPiece(buf, ext, piece, due, tail);
    PieceTaken(client, s, [], pack);
    if |buf| >= |piece| {
      PieceTaken(client, s, buf[|piece|..], pack);
    } else {
      PartOfPiece(client, s, |buf|, pack);
      assert |[] + ext| > |due + tail|;
    }
  }

  // ---------------------------------------------------------------- one call

  /** A step of the call meets the C3 packet in part. */
  predicate MeetsShortC3(s: Shake, buf: seq<Byte>, packs: Packs)
    requires Going(s)
    decreases 10 - Rank(s)
  {
    || ShortC3(s, buf)
    || (var r := Step(s, buf, packs.For(s));
        GoesOn(s, r.reported) && (StepNeverFails(s, buf, packs.For(s)); MeetsShortC3(r.state, r.rest, packs)))
  }

  lemma NothingThere(packs: Packs)
    ensures Loop(Publish, [], packs) == LoopResult(NotEnough, Publish, [], [])
  {
    ParseMessageNeverFails(packs.For(Publish), []);
  }

  /** What a call does when its first step goes on. */
  lemma LoopIs(s: Shake, buf: seq<Byte>, packs: Packs)
    requires Rank(s) < 8
    ensures var r, l := Step(s, buf, packs.For(s)), Loop(s, buf, packs);
      && Going(r.state)
      && if GoesOn(s, r.reported) then
           l.rest == Loop(r.state, r.rest, packs).rest && l.state == Loop(r.state, r.rest, packs).state
         else l.rest == r.rest && l.state == r.state
  {
    hide Step;
    StepNeverFails(s, buf, packs.For(s));
  }

  /** A call keeps the bytes in line if and only if it does not meet the C3 packet in part. */
  lemma {:induction false} CallInLine(client: Client, tail: seq<Byte>, s: Shake, buf: seq<Byte>, ext: seq<Byte>,
                                      packs: Packs)
    requires client.Valid() && Going(s) && Aligned(client, tail, s, buf, ext)
    ensures var r := Loop(s, buf, packs);
      Aligned(client, tail, r.state, r.rest, ext) <==> !MeetsShortC3(s, buf, packs)
    ensures MeetsShortC3(s, buf, packs) ==> client.c3.Some?
    decreases 10 - Rank(s)
  {
    hide Step, Aligned, Loop;
    if Rank(s) == 8 {
      StepAtEnd(s, buf, packs.For(s));
      LoopEnds(s, buf, packs);
    } else {
      StepInLine(client, tail, s, buf, ext, packs.For(s));
      LoopIs(s, buf, packs);
      var r := Step(s, buf, packs.For(s));
      if ShortC3(s, buf) {
        NothingThere(packs);
      } else if GoesOn(s, r.reported) {
        CallInLine(client, tail, r.state, r.rest, ext, packs);
      }
    }
  }

  /** With all bytes there a call leaves only for the authentication, or succeeds. */
  lemma {:induction false} CallFinishes(client: Client, tail: seq<Byte>, s: Shake, buf: seq<Byte>, packs: Packs)
    requires client.Valid() && Going(s) && Aligned(client, tail, s, buf, [])
    ensures var r := Loop(s, buf, packs);
      && Aligned(client, tail, r.state, r.rest, [])
      && r.state == if Rank(s) <= Rank(ReleaseStream) then FcPublish else Success
    decreases 10 - Rank(s)
  {
    hide Step, Loop, Client.Due, Client.Piece, Client.Valid;
    if Rank(s) == 8 {
      StepAtEnd(s, buf, packs.For(s));
      LoopEnds(s, buf, packs);
    } else {
      DueIs(client, Rank(s));
      assert buf + [] == buf;
      StepInLine(client, tail, s, buf, [], packs.For(s));
      LoopIs(s, buf, packs);
      var r := Step(s, buf, packs.For(s));
      if s != ReleaseStream {
        CallFinishes(client, tail, r.state, r.rest, packs);
      }
    }
  }

  lemma NothingDue(client: Client, tail: seq<Byte>, buf: seq<Byte>)
    requires client.Valid() && Aligned(client, tail, Success, buf, [])
    ensures buf == tail
  {
    hide Client.Due, Client.Piece, Client.Valid;
    DueIs(client, 8);
    assert buf + [] == buf && [] + tail == tail;
  }

  lemma {:induction false} WholeInLine(client: Client, tail: seq<Byte>, s: Shake, buf: seq<Byte>, ref: Packs)
    requires client.Valid() && Going(s) && Aligned(client, tail, s, buf, [])
    ensures Whole(s, buf, ref) == Position(Success, tail)
    decreases 10 - Rank(s)
  {
    hide Step, Client.Due, Client.Piece, Client.Valid;
    if Rank(s) == 8 {
      NothingDue(client, tail, buf);
    } else {
      DueIs(client, Rank(s));
      assert buf + [] == buf;
      StepInLine(client, tail, s, buf, [], ref.For(s));
      WholeInLine(client, tail, NextOf(s), Step(s, buf, ref.For(s)).rest, ref);
    }
  }

  /** Taken in one go, a complete handshake leads to success and leaves exactly what follows it. */
  lemma CompleteHandshake(client: Client, tail: seq<Byte>, ref: Packs)
    requires client.Valid()
    ensures Whole(C01, client.Bytes() + tail, ref) == Position(Success, tail)
  {
    assert client.Bytes() + tail + [] == client.Bytes() + tail;
    WholeInLine(client, tail, C01, client.Bytes() + tail, ref);
  }

  // ---------------------------------------------------------------- whole runs

  predicate MeetsNoShortC3(p: Progress, events: seq<Event>)
    requires OnScript(p)
    decreases |events|
  {
    events == [] ||
      (AfterOnScript(p, events[0]);
       && (events[0].Call? ==> !MeetsShortC3(p.state, p.buf, events[0].packs))
       && MeetsNoShortC3(After(p, events[0]), events[1..]))
  }

  /** At every moment of the run the bytes are in line. */
  predicate StaysInLine(client: Client, tail: seq<Byte>, p: Progress, events: seq<Event>, later: seq<Byte>)
    requires client.Valid() && OnScript(p)
    decreases |events|
  {
    && Aligned(client, tail, p.state, p.buf, Received(events) + later)
    && (events == [] ||
        (AfterOnScript(p, events[0]); StaysInLine(client, tail, After(p, events[0]), events[1..], later)))
  }

  lemma ArrivalInLine(client: Client, tail: seq<Byte>, s: Shake, buf: seq<Byte>, bytes: seq<Byte>, more: seq<Byte>)
    requires client.Valid() && Aligned(client, tail, s, buf, bytes + more)
    ensures Aligned(client, tail, s, buf + bytes, more)
  {
    hide Client.Due, Client.Valid;
    Regroup3(buf, bytes, more);
  }

  lemma NotInLine(client: Client, tail: seq<Byte>, p: Progress, events: seq<Event>, later: seq<Byte>)
    requires client.Valid() && OnScript(p) && !Aligned(client, tail, p.state, p.buf, Received(events) + later)
    ensures !StaysInLine(client, tail, p, events, later)
  {
  }

  /** However the client's bytes are cut: they stay in line for the whole run if and only if no call finds
      from 1 to 25 bytes of the C3 packet. A client that sends createStream has nothing to fear. */
  lemma {:induction false} InLineIff(client: Client, tail: seq<Byte>, p: Progress, events: seq<Event>, later: seq<Byte>)
    requires client.Valid() && OnScript(p) && Aligned(client, tail, p.state, p.buf, Received(events) + later)
    ensures StaysInLine(client, tail, p, events, later) <==> MeetsNoShortC3(p, events)
    ensures client.c3.None? ==> MeetsNoShortC3(p, events)
    decreases |events|
  {
    hide Aligned, MeetsShortC3, Script, Loop;
    if events != [] {
      var e, more := events[0], Received(events[1..]);
      AfterOnScript(p, e);
      Regroup3(NewBytes(e), more, later);
      match e
      case Arrive(bytes) =>
        ArrivalInLine(client, tail, p.state, p.buf, bytes, more + later);
        InLineIff(client, tail, After(p, e), events[1..], later);
      case Call(packs) =>
        assert [] + (more + later) == more + later;
        CallInLine(client, tail, p.state, p.buf, more + later, packs);
        if MeetsShortC3(p.state, p.buf, packs) {
          NotInLine(client, tail, After(p, e), events[1..], later);
        } else {
          InLineIff(client, tail, After(p, e), events[1..], later);
        }
    }
  }

  lemma {:induction false} EndsInLine(client: Client, tail: seq<Byte>, p: Progress, events: seq<Event>,
                                      later: seq<Byte>)
    requires client.Valid() && OnScript(p) && StaysInLine(client, tail, p, events, later)
    ensures var q := Run(p, events); Aligned(client, tail, q.state, q.buf, later)
    decreases |events|
  {
    hide Aligned, Client.Valid, Loop, Script;
    if events == [] {
      NothingInFront(later);
    } else {
      AfterOnScript(p, events[0]);
      EndsInLine(client, tail, After(p, events[0]), events[1..], later);
    }
  }

  lemma StartInLine(client: Client, tail: seq<Byte>, events: seq<Event>, later: seq<Byte>)
    requires client.Valid() && Received(events) + later == client.Bytes() + tail
    ensures OnScript(START) && Aligned(client, tail, START.state, START.buf, Received(events) + later)
  {
    hide Client.Valid, Client.Due, Received;
    NothingInFront(Received(events) + later);
  }

  lemma StartOnScript()
    ensures OnScript(START)
  {
  }

  /** What a run on all the bytes of a client comes to, while it is in line. */
  lemma InLineAtEnd(client: Client, tail: seq<Byte>, events: seq<Event>)
    requires client.Valid() && Received(events) == client.Bytes() + tail
    requires (client.c3.Some? ==> MeetsNoShortC3(START, events))
    ensures var q := Run(START, events); Aligned(client, tail, q.state, q.buf, [])
  {
    assert Received(events) + [] == Received(events);
    StartInLine(client, tail, events, []);
    InLineIff(client, tail, START, events, []);
    EndsInLine(client, tail, START, events, []);
  }

  /** All replies of a successful handshake. */
  lemma FullScript()
    ensures Script(Success) ==
      [S01, S2, AcknowledgeSize, PeerBandwidth, SetChunkSizeReply, ConnectResult, CreateResult, PublishStart]
  {
    assert Script(SetChunkSize) == [S01, S2];
    assert Script(ReleaseStream) == [S01, S2, AcknowledgeSize, PeerBandwidth, SetChunkSizeReply, ConnectResult];
  }

  /** A complete handshake followed by the beginning of the stream, cut in any way: if nothing more can be
      done the handshake has succeeded, the stream is unread, all replies are sent in order, and the
      authentication was asked for once. The only thing asked of the run concerns the C3 packet. */
  lemma DrainedSucceeds(client: Client, tail: seq<Byte>, events: seq<Event>, ref: Packs)
    requires client.Valid() && Received(events) == client.Bytes() + tail
    requires (client.c3.Some? ==> MeetsNoShortC3(START, events))
    ensures Drained(Run(START, events), ref) ==> Run(START, events) == Progress(Success, tail, Script(Success), 1)
  {
    hide Step, Run, MeetsNoShortC3, Script, Client.Piece;
    StartOnScript();
    InLineAtEnd(client, tail, events);
    var q := Run(START, events);
    assert q.buf + [] == q.buf && [] + tail == tail;
    if q.state != Success && Drained(q, ref) {
      StepInLine(client, tail, q.state, q.buf, [], ref.For(q.state));
    }
  }

  lemma {:induction false} RunAppend(p: Progress, a: seq<Event>, b: seq<Event>)
    requires OnScript(p)
    ensures Run(p, a + b) == Run(Run(p, a), b)
    decreases |a|
  {
    hide Script, Loop;
    if a == [] {
      assert a + b == b;
    } else {
      assert (a + b)[0] == a[0] && (a + b)[1..] == a[1..] + b;
      AfterOnScript(p, a[0]);
      RunAppend(After(p, a[0]), a[1..], b);
    }
  }

  lemma RunOne(p: Progress, e: Event)
    requires OnScript(p)
    ensures Run(p, [e]) == After(p, e)
  {
    AfterOnScript(p, e);
    assert [e][1..] == [];
  }

  lemma {:induction false} ReceivedAppend(a: seq<Event>, b: seq<Event>)
    ensures Received(a + b) == Received(a) + Received(b)
  {
    if a == [] {
      assert a + b == b;
    } else {
      assert (a + b)[0] == a[0] && (a + b)[1..] == a[1..] + b;
      ReceivedAppend(a[1..], b);
    }
  }

  // ---------------------------------------------------------------- the receive window

  /** Bytes in line never fill the window with a part of a message, if no message is longer than it. */
  lemma ClientFitsWindow(client: Client, tail: seq<Byte>, s: Shake, buf: seq<Byte>, ext: seq<Byte>, pack: PackHeader)
    requires client.Valid() && client.Fits() && Rank(s) < 8 && Aligned(client, tail, s, buf, ext)
    ensures FitsWindow(s, buf, pack)
  {
    hide Step, Aligned;
    if |buf| == WINDOW && 2 <= Rank(s) && !IsC3(s, buf) {
      StepInLine(client, tail, s, buf, ext, pack);
      FullWindowStuckIff(s, buf, pack);
    }
  }

  /** Every read fits into what the window has left. */
  predicate InWindow(p: Progress, events: seq<Event>)
    requires OnScript(p)
    decreases |events|
  {
    events == [] ||
      (AfterOnScript(p, events[0]);
       (events[0].Arrive? ==> |p.buf| + |events[0].bytes| <= WINDOW) && InWindow(After(p, events[0]), events[1..]))
  }

  /** Every call of the handshake leaves room for the next read. */
  predicate RoomAfterCalls(p: Progress, events: seq<Event>)
    requires OnScript(p)
    decreases |events|
  {
    events == [] ||
      (AfterOnScript(p, events[0]);
       && (events[0].Call? && Rank(p.state) < 8 ==> |After(p, events[0]).buf| < WINDOW)
       && RoomAfterCalls(After(p, events[0]), events[1..]))
  }

  /** The receive window stays open during the whole handshake with a client whose messages fit it. */
  lemma {:induction false} ClientLeavesRoom(client: Client, tail: seq<Byte>, p: Progress, events: seq<Event>,
                                            later: seq<Byte>)
    requires client.Valid() && client.Fits() && OnScript(p) && |p.buf| <= WINDOW && InWindow(p, events)
    requires StaysInLine(client, tail, p, events, later)
    ensures RoomAfterCalls(p, events)
    decreases |events|
  {
    hide Aligned, Loop, FitsWindow, Script;
    if events != [] {
      var e := events[0];
      AfterOnScript(p, e);
      if e.Call? {
        LoopConsumes(p.state, p.buf, e.packs);
        if Rank(p.state) < 8 {
          ClientFitsWindow(client, tail, p.state, p.buf, Received(events) + later, e.packs.For(p.state));
          CallLeavesRoom(p.state, p.buf, e.packs);
        }
      }
      ClientLeavesRoom(client, tail, After(p, e), events[1..], later);
    }
  }

  /** From the first byte on, whatever the reads: with such a client no handshake call fills the window. */
  lemma HandshakeLeavesRoom(client: Client, tail: seq<Byte>, events: seq<Event>, later: seq<Byte>)
    requires client.Valid() && client.Fits() && Received(events) + later == client.Bytes() + tail
    requires InWindow(START, events) && (client.c3.Some? ==> MeetsNoShortC3(START, events))
    ensures RoomAfterCalls(START, events)
  {
    StartInLine(client, tail, events, later);
    InLineIff(client, tail, START, events, later);
    ClientLeavesRoom(client, tail, START, events, later);
  }
}
