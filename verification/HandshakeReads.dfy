/**
 The handshake as the connection drives it: one call of ShakeHand behind each read, and none without a
 read. The call that takes releaseStream leaves for the authentication with the bytes behind it unread,
 so how far a handshake gets depends on where the reads cut the client's bytes.
 */
module HandshakeReads {
  import opened Bytes
  import opened Format
  import opened Handshake
  import opened HandshakeClients
  import opened RtmpCodec

  /** One OnReadable that finds data, what the authentication would say if it were asked, and how many
      replies would pass before a send fails for good. */
  datatype Read = Read(bytes: seq<Byte>, packs: Packs, authentic: bool, passes: nat)

  /** More than any call sends. */
  const ALL: nat := 8

  /** The handshake, the replies that passed Send, whether Shutdown was called, and whether OnBodyData takes
      the reads that follow. */
  datatype Link = Link(progress: Progress, sent: seq<Reply>, shut: bool, takesBody: bool)

  const BEGIN := Link(START, [], false, false)

  /** The call of ShakeHand behind a read. */
  function CallOf(l: Link, read: Read): LoopResult
    requires OnScript(l.progress)
  {
    Loop(l.progress.state, l.progress.buf + read.bytes, read.packs)
  }

  /** OnReadable and OnConnectionShakeHand. Behind a successful handshake nothing more is taken: the bytes
      are left for OnBodyData. */
  function AfterRead(l: Link, read: Read): (r: Link)
    requires OnScript(l.progress)
    ensures OnScript(r.progress)
  {
    var p := After(l.progress, Arrive(read.bytes));
    AfterOnScript(p, Call(read.packs));
    var r := CallOf(l, read);
    Link(After(p, Call(read.packs)), l.sent + Passed(l.shut, read.passes, r.replies),
      || l.shut || read.passes < |r.replies| || r.result == HasFailed
      || (r.result == AuthenticateNow && !read.authentic),
      l.takesBody || r.result == Succeeded)
  }

  function Front(cuts: seq<Read>): seq<Read>
    requires cuts != []
  {
    cuts[..|cuts| - 1]
  }

  function Last(cuts: seq<Read>): Read
    requires cuts != []
  {
    cuts[|cuts| - 1]
  }

  function Total(cuts: seq<Read>): seq<Byte> {
    if cuts == [] then [] else Total(Front(cuts)) + Last(cuts).bytes
  }

  /** How many bytes are there before the last read. */
  function Before(cuts: seq<Read>): nat {
    if cuts == [] then 0 else |Total(Front(cuts))|
  }

  function ReadRun(cuts: seq<Read>): (r: Link)
    ensures OnScript(r.progress)
  {
    if cuts == [] then BEGIN else AfterRead(ReadRun(Front(cuts)), Last(cuts))
  }

  /** The arrivals and calls of these reads. */
  function Events(cuts: seq<Read>): seq<Event> {
    if cuts == [] then [] else Events(Front(cuts)) + [Arrive(Last(cuts).bytes)] + [Call(Last(cuts).packs)]
  }

  lemma RunNothing(p: Progress)
    requires OnScript(p)
    ensures Run(p, []) == p
  {
  }

  lemma ReceivedOne(e: Event)
    ensures Received([e]) == NewBytes(e)
  {
    assert [e][1..] == [];
    NothingInFront(NewBytes(e));
  }

  lemma OneMoreEvents(events: seq<Event>, read: Read)
    requires OnScript(START)
    ensures var p, more := Run(START, events), events + [Arrive(read.bytes)] + [Call(read.packs)];
      && OnScript(After(p, Arrive(read.bytes)))
      && Run(START, more) == After(After(p, Arrive(read.bytes)), Call(read.packs))
      && Received(more) == Received(events) + read.bytes
  {
    hide Script, Loop, Run;
    var p, arrive, call := Run(START, events), Arrive(read.bytes), Call(read.packs);
    AfterOnScript(p, arrive);
    RunAppend(START, events, [arrive]);
    RunAppend(START, events + [arrive], [call]);
    RunOne(p, arrive);
    RunOne(After(p, arrive), call);
    ReceivedAppend(events, [arrive]);
    ReceivedAppend(events + [arrive], [call]);
    ReceivedOne(arrive);
    ReceivedOne(call);
    NothingInFront(Received(events) + read.bytes);
  }

  /** Reads are runs, so that everything known of runs holds of them. */
  lemma {:induction false} ReadRunIsRun(cuts: seq<Read>)
    ensures OnScript(START) && ReadRun(cuts).progress == Run(START, Events(cuts))
    ensures Received(Events(cuts)) == Total(cuts)
  {
    hide After, Script, OnScript, Run;
    StartOnScript();
    if cuts == [] {
      RunNothing(START);
    } else {
      var front, last := Front(cuts), Last(cuts);
      ReadRunIsRun(front);
      OneMoreEvents(Events(front), last);
    }
  }

  // ---------------------------------------------------------------- how far a call gets

  /** How many bytes of the client come before its piece `k`. */
  function Begins(client: Client, k: nat): nat
    requires client.Valid() && k <= 8
  {
    if k == 0 then 0 else Begins(client, k - 1) + |client.Piece(k - 1)|
  }

  /** How many bytes it takes to be asked for the authentication. */
  function UpToRelease(client: Client): nat
    requires client.Valid()
  {
    Begins(client, 5)
  }

  lemma {:induction false} BeginsGrows(client: Client, j: nat, k: nat)
    requires client.Valid() && j <= k <= 8
    ensures Begins(client, j) <= Begins(client, k)
    ensures j < k ==> Begins(client, j + 1) <= Begins(client, k)
    decreases k
  {
    hide Client.Piece, Client.Valid;
    if j < k {
      BeginsGrows(client, j, k - 1);
    }
  }

  lemma {:induction false} DueLength(client: Client, k: nat)
    requires client.Valid() && k <= 8
    ensures Begins(client, k) + |client.Due(k)| == Begins(client, 8)
    decreases 8 - k
  {
    hide Client.Piece, Client.Valid;
    if k < 8 {
      DueIs(client, k);
      DueLength(client, k + 1);
    }
  }

  lemma BytesLength(client: Client)
    requires client.Valid()
    ensures |client.Bytes()| == Begins(client, 8)
  {
    DueLength(client, 0);
  }

  /** How many bytes of the client are taken or unread. */
  function Seen(client: Client, s: Shake, buf: seq<Byte>): nat
    requires client.Valid() && Going(s)
  {
    Begins(client, Rank(s)) + |buf|
  }

  /** Bytes in line know how many of them there are. */
  lemma SeenInLine(client: Client, tail: seq<Byte>, s: Shake, buf: seq<Byte>, ext: seq<Byte>)
    requires client.Valid() && Going(s) && Aligned(client, tail, s, buf, ext)
    ensures Seen(client, s, buf) + |ext| == |client.Bytes() + tail|
  {
    hide Client.Piece, Client.Valid, Client.Due;
    DueLength(client, Rank(s));
    BytesLength(client);
    assert |buf + ext| == |client.Due(Rank(s)) + tail|;
  }

  /** A part of the C3 packet is there, and nothing behind it. */
  predicate InC3(client: Client, seen: nat)
    requires client.Valid()
  {
    client.c3.Some? && Begins(client, 6) < seen < Begins(client, 7)
  }

  /** A call takes every whole piece, and leaves behind releaseStream. */
  predicate Reaches(client: Client, s: Shake, r: LoopResult)
    requires client.Valid()
  {
    && Going(r.state)
    && (Rank(s) < 5 ==> Rank(r.state) <= 5)
    && (Rank(r.state) == 8 || |r.rest| < |client.Piece(Rank(r.state))| || (Rank(s) < 5 && Rank(r.state) == 5))
  }

  /** Where a part of a piece stands. */
  lemma PartInC3(client: Client, s: Shake, buf: seq<Byte>)
    requires client.Valid() && Going(s) && (Rank(s) < 8 ==> |buf| < |client.Piece(Rank(s))|)
    ensures Rank(s) >= 5 && InC3(client, Seen(client, s, buf)) <==> client.c3.Some? && s == CreateStream && buf != []
  {
    hide Client.Piece, Client.Valid;
    if Rank(s) < 6 {
      BeginsGrows(client, Rank(s), 6);
    } else {
      BeginsGrows(client, 6, Rank(s));
    }
  }

  lemma SeenStep(client: Client, s: Shake, buf: seq<Byte>)
    requires client.Valid() && Rank(s) < 8 && |buf| >= |client.Piece(Rank(s))|
    ensures Seen(client, NextOf(s), buf[|client.Piece(Rank(s))|..]) == Seen(client, s, buf)
  {
    hide Client.Piece, Client.Valid;
  }

  /** What a call meets, and how far it gets otherwise. */
  predicate CallEnds(client: Client, s: Shake, buf: seq<Byte>, packs: Packs)
    requires client.Valid() && Going(s)
  {
    && (MeetsShortC3(s, buf, packs) <==> Rank(s) >= 5 && InC3(client, Seen(client, s, buf)))
    && (!MeetsShortC3(s, buf, packs) ==> Reaches(client, s, Loop(s, buf, packs)))
  }

  lemma {:induction false} CallReaches(client: Client, tail: seq<Byte>, s: Shake, buf: seq<Byte>, ext: seq<Byte>,
                                       packs: Packs)
    requires client.Valid() && Going(s) && Aligned(client, tail, s, buf, ext)
    ensures CallEnds(client, s, buf, packs)
    decreases 10 - Rank(s)
  {
    hide Step, Aligned, Loop, Client.Piece, Client.Valid, Seen, InC3;
    if Rank(s) == 8 {
      PartInC3(client, s, buf);
      StepAtEnd(s, buf, packs.For(s));
      LoopEnds(s, buf, packs);
    } else {
      StepInLine(client, tail, s, buf, ext, packs.For(s));
      LoopIs(s, buf, packs);
      var r := Step(s, buf, packs.For(s));
      if |buf| < |client.Piece(Rank(s))| {
        PartInC3(client, s, buf);
      } else {
        SeenStep(client, s, buf);
        if s != ReleaseStream {
          CallReaches(client, tail, r.state, r.rest, ext, packs);
        }
      }
    }
  }

  // ---------------------------------------------------------------- how far the reads get

  /** Where a handshake stands that had `before` bytes at its last but one call and has `now`: behind all
      whole pieces, but no further than releaseStream in the call that takes it. */
  predicate Stands(client: Client, before: nat, now: nat, s: Shake)
    requires client.Valid()
  {
    && Going(s) && Begins(client, Rank(s)) <= now
    && if before < UpToRelease(client) <= now then s == FcPublish
       else s == Success || now < Begins(client, Rank(s) + 1)
  }

  /** Which side of releaseStream it is on is a matter of bytes. */
  lemma StandsBefore(client: Client, before: nat, now: nat, s: Shake)
    requires client.Valid() && Stands(client, before, now, s)
    ensures Rank(s) >= 5 <==> now >= UpToRelease(client)
    ensures s == Success <==> now >= Begins(client, 8) && before >= UpToRelease(client)
  {
    hide Client.Piece, Client.Valid, Begins;
    BeginsGrows(client, 5, 8);
    if Rank(s) < 5 {
      BeginsGrows(client, Rank(s), 5);
    } else {
      BeginsGrows(client, 5, Rank(s));
      BeginsGrows(client, Rank(s), 8);
    }
  }

  lemma ReachesStands(client: Client, before: nat, s: Shake, buf: seq<Byte>, r: LoopResult)
    requires client.Valid() && Going(s) && Reaches(client, s, r)
    requires Seen(client, r.state, r.rest) == Seen(client, s, buf)
    requires before <= Seen(client, s, buf) && (Rank(s) >= 5 <==> before >= UpToRelease(client))
    ensures Stands(client, before, Seen(client, s, buf), r.state)
  {
    hide Client.Piece, Client.Valid;
    var k := Rank(r.state);
    if k < 5 {
      BeginsGrows(client, k, 5);
    } else {
      BeginsGrows(client, 5, k);
    }
  }

  /** What a read does to a handshake whose bytes are in line. */
  lemma ReadStands(client: Client, tail: seq<Byte>, l: Link, read: Read, later: seq<Byte>, before: nat)
    requires client.Valid() && OnScript(l.progress)
    requires Aligned(client, tail, l.progress.state, l.progress.buf, read.bytes + later)
    requires Stands(client, before, Seen(client, l.progress.state, l.progress.buf), l.progress.state)
    ensures var now, q := Seen(client, l.progress.state, l.progress.buf), AfterRead(l, read).progress;
      && (Aligned(client, tail, q.state, q.buf, later) <==>
          !(now >= UpToRelease(client) && InC3(client, now + |read.bytes|)))
      && (Aligned(client, tail, q.state, q.buf, later) ==>
          && Seen(client, q.state, q.buf) == now + |read.bytes|
          && Stands(client, now, now + |read.bytes|, q.state))
  {
    hide Client.Piece, Client.Valid, Client.Due, Begins, Aligned, Loop, Reaches, Stands;
    var p, q := l.progress, AfterRead(l, read).progress;
    var s, buf := p.state, p.buf + read.bytes;
    ArrivalInLine(client, tail, s, p.buf, read.bytes, later);
    StandsBefore(client, before, Seen(client, s, p.buf), s);
    CallInLine(client, tail, s, buf, later, read.packs);
    CallReaches(client, tail, s, buf, later, read.packs);
    if Aligned(client, tail, q.state, q.buf, later) {
      SeenInLine(client, tail, s, buf, later);
      SeenInLine(client, tail, q.state, q.buf, later);
      ReachesStands(client, Seen(client, s, p.buf), s, buf, Loop(s, buf, read.packs));
    }
  }

  lemma StartStands(client: Client, tail: seq<Byte>, later: seq<Byte>)
    requires client.Valid() && later == client.Bytes() + tail
    ensures Aligned(client, tail, START.state, START.buf, later) && Seen(client, START.state, START.buf) == 0
    ensures Stands(client, 0, 0, START.state)
  {
    hide Client.Valid, Client.Due;
    assert [] + later == later;
    BeginsGrows(client, 1, 5);
    PieceTaken(client, C01, [], PackHeader([0, 0, 0], [0, 0, 0], 0));
  }

  /** Some read but the one that completes releaseStream ends inside the C3 packet. */
  predicate CutsC3(client: Client, cuts: seq<Read>)
    requires client.Valid()
  {
    cuts != [] &&
      (CutsC3(client, Front(cuts)) || (Before(cuts) >= UpToRelease(client) && InC3(client, |Total(cuts)|)))
  }

  /** Behind every read the bytes are in line. */
  predicate InLine(client: Client, tail: seq<Byte>, cuts: seq<Read>, later: seq<Byte>)
    requires client.Valid()
  {
    var p := ReadRun(cuts).progress;
    && Aligned(client, tail, p.state, p.buf, later)
    && (cuts == [] || InLine(client, tail, Front(cuts), Last(cuts).bytes + later))
  }

  /** The reads keep the client's bytes in line if and only if none of them cuts the C3 packet; where they
      stand then depends on no more than how many bytes there are now and were before. */
  lemma {:induction false} ReadsInLineIff(client: Client, tail: seq<Byte>, cuts: seq<Read>, later: seq<Byte>)
    requires client.Valid() && Total(cuts) + later == client.Bytes() + tail
    ensures InLine(client, tail, cuts, later) <==> !CutsC3(client, cuts)
    ensures var p := ReadRun(cuts).progress;
      InLine(client, tail, cuts, later) ==>
        Seen(client, p.state, p.buf) == |Total(cuts)| && Stands(client, Before(cuts), |Total(cuts)|, p.state)
  {
    hide Client.Piece, Client.Valid, Client.Due, Aligned, AfterRead, Stands, InC3;
    if cuts == [] {
      StartStands(client, tail, later);
    } else {
      var front, read := Front(cuts), Last(cuts);
      Regroup3(Total(front), read.bytes, later);
      ReadsInLineIff(client, tail, front, read.bytes + later);
      if InLine(client, tail, front, read.bytes + later) {
        ReadStands(client, tail, ReadRun(front), read, later, Before(front));
      }
    }
  }

  // ---------------------------------------------------------------- when it is complete, and when it stalls

  lemma TakesBodyAtSuccess(cuts: seq<Read>)
    ensures ReadRun(cuts).takesBody <==> ReadRun(cuts).progress.state == Success
  {
    if cuts != [] {
      var l, read := ReadRun(Front(cuts)), Last(cuts);
      TakesBodyAtSuccess(Front(cuts));
      var p := After(l.progress, Arrive(read.bytes));
      LoopFollowsScript(p.state, p.buf, read.packs);
    }
  }

  lemma MovePiece(all: seq<Byte>, n: nat, piece: seq<Byte>, due: seq<Byte>)
    requires n <= |all| && all == all[..n] + (piece + due)
    ensures n + |piece| <= |all| && all == all[..n + |piece|] + due
  {
    Regroup3(all[..n], piece, due);
    FrontAndRest(all[..n] + piece, due);
  }

  lemma DueIsBytes(client: Client)
    requires client.Valid()
    ensures client.Bytes() == client.Due(0) == client.Bytes()[..0] + client.Due(0)
  {
  }

  lemma {:induction false} DuePart(client: Client, k: nat)
    requires client.Valid() && k <= 8
    ensures Begins(client, k) <= |client.Bytes()|
    ensures client.Bytes() == client.Bytes()[..Begins(client, k)] + client.Due(k)
  {
    hide Client.Piece, Client.Valid, Client.Bytes, Client.Due;
    BytesLength(client);
    BeginsGrows(client, k, 8);
    if k == 0 {
      DueIsBytes(client);
    } else {
      DuePart(client, k - 1);
      BeginsGrows(client, k - 1, 8);
      DueIs(client, k - 1);
      MovePiece(client.Bytes(), Begins(client, k - 1), client.Piece(k - 1), client.Due(k));
    }
  }

  /** The unread bytes are those that were received behind the piece the state waits for. */
  lemma UnreadInLine(client: Client, tail: seq<Byte>, s: Shake, buf: seq<Byte>, all: seq<Byte>, later: seq<Byte>)
    requires client.Valid() && Going(s) && Aligned(client, tail, s, buf, later) && all + later == client.Bytes() + tail
    ensures Begins(client, Rank(s)) <= |all| && buf == all[Begins(client, Rank(s))..]
  {
    hide Client.Piece, Client.Valid;
    SeenInLine(client, tail, s, buf, later);
    DuePart(client, Rank(s));
    var front := client.Bytes()[..Begins(client, Rank(s))];
    Regroup3(front, client.Due(Rank(s)), tail);
    Regroup3(front, buf, later);
    assert all + later == (front + buf) + later;
    assert all == front + buf by {
      FrontAndRest(all, later);
      FrontAndRest(front + buf, later);
    }
  }

  /** State, unread bytes and replies at every moment of a handshake whose C3 packet is not cut. */
  lemma ReadsStand(client: Client, tail: seq<Byte>, cuts: seq<Read>, later: seq<Byte>)
    requires client.Valid() && Total(cuts) + later == client.Bytes() + tail && !CutsC3(client, cuts)
    ensures var p := ReadRun(cuts).progress;
      && Stands(client, Before(cuts), |Total(cuts)|, p.state)
      && p.buf == Total(cuts)[Begins(client, Rank(p.state))..]
      && p.replies == Script(p.state) && p.asked == if |Total(cuts)| >= UpToRelease(client) then 1 else 0
  {
    hide Client.Piece, Client.Valid, Begins, Aligned, Stands, CutsC3;
    ReadsInLineIff(client, tail, cuts, later);
    var p := ReadRun(cuts).progress;
    UnreadInLine(client, tail, p.state, p.buf, Total(cuts), later);
    StandsBefore(client, Before(cuts), |Total(cuts)|, p.state);
  }

  lemma NoReplyYet()
    ensures Script(C01) == []
  {
  }

  lemma NothingMore(replies: seq<Reply>)
    ensures replies + [] == replies
  {
  }

  lemma {:induction false} AuthenticateAt(s: Shake, buf: seq<Byte>, packs: Packs)
    requires Going(s) && Loop(s, buf, packs).result == AuthenticateNow
    ensures Loop(s, buf, packs).state == FcPublish
    decreases 10 - Rank(s)
  {
    hide Step;
    if Rank(s) == 8 {
      StepAtEnd(s, buf, packs.For(s));
    } else {
      StepNeverFails(s, buf, packs.For(s));
      var r := Step(s, buf, packs.For(s));
      if r.reported != DataNotEnough && s != ReleaseStream {
        AuthenticateAt(r.state, r.rest, packs);
      }
    }
  }

  /** A send failed for good while the connection was CONNECTED. */
  predicate Broken(cuts: seq<Read>) {
    cuts != [] &&
      (|| Broken(Front(cuts))
       || (!ReadRun(Front(cuts)).shut && Last(cuts).passes < |CallOf(ReadRun(Front(cuts)), Last(cuts)).replies|))
  }

  lemma FewReplies(s: Shake)
    ensures |Script(s)| <= ALL
  {
  }

  lemma {:induction false} NothingBreaks(cuts: seq<Read>)
    requires forall i :: 0 <= i < |cuts| ==> cuts[i].passes >= ALL
    ensures !Broken(cuts)
  {
    hide Loop, Script;
    if cuts != [] {
      var l, read := ReadRun(Front(cuts)), Last(cuts);
      NothingBreaks(Front(cuts));
      LoopFollowsScript(l.progress.state, l.progress.buf + read.bytes, read.packs);
      FewReplies(CallOf(l, read).state);
    }
  }

  /** What passes Send, in terms of what is handed to it. */
  predicate SendsScript(l: Link, broken: bool) {
    && l.sent <= l.progress.replies
    && (!l.shut ==> !broken && l.sent == l.progress.replies)
    && (broken ==> |l.sent| < |l.progress.replies|)
    && (l.shut && !broken ==> l.sent == Script(FcPublish) && Rank(l.progress.state) >= 5)
  }

  lemma SendsOneMore(l: Link, read: Read, broken: bool)
    requires OnScript(l.progress) && SendsScript(l, broken)
    ensures SendsScript(AfterRead(l, read), broken || (!l.shut && read.passes < |CallOf(l, read).replies|))
  {
    hide Loop, Script;
    var s, buf := l.progress.state, l.progress.buf + read.bytes;
    LoopFollowsScript(s, buf, read.packs);
    NothingMore(l.sent);
    if CallOf(l, read).result == AuthenticateNow {
      AuthenticateAt(s, buf, read.packs);
    }
  }

  /** What passes Send, for any bytes: all that is handed to it until Shutdown, and nothing behind it, so
      that the first six replies are all that a refused client gets; a send that fails ends them as well. */
  lemma {:induction false} SentIs(cuts: seq<Read>)
    ensures SendsScript(ReadRun(cuts), Broken(cuts))
  {
    hide Script, AfterRead, CallOf;
    if cuts == [] {
      NoReplyYet();
    } else {
      SentIs(Front(cuts));
      SendsOneMore(ReadRun(Front(cuts)), Last(cuts), Broken(Front(cuts)));
    }
  }

  /** The authentication failed in the read that completed releaseStream. */
  predicate Refused(client: Client, cuts: seq<Read>)
    requires client.Valid()
  {
    cuts != [] &&
      (|| Refused(client, Front(cuts))
       || (Before(cuts) < UpToRelease(client) <= |Total(cuts)| && !Last(cuts).authentic))
  }

  lemma ShutAfterRead(l: Link, read: Read)
    requires OnScript(l.progress)
    ensures var r := AfterRead(l, read);
      r.shut <==>
        || l.shut || read.passes < |CallOf(l, read).replies|
        || (Rank(l.progress.state) < 5 <= Rank(r.progress.state) && !read.authentic)
  {
    hide Loop;
    LoopFollowsScript(l.progress.state, l.progress.buf + read.bytes, read.packs);
  }

  lemma {:induction false} ShutIfRefused(client: Client, tail: seq<Byte>, cuts: seq<Read>, later: seq<Byte>)
    requires client.Valid() && Total(cuts) + later == client.Bytes() + tail && !CutsC3(client, cuts)
    ensures ReadRun(cuts).shut <==> Refused(client, cuts) || Broken(cuts)
  {
    hide Client.Piece, Client.Valid, Client.Bytes, UpToRelease, Stands, AfterRead, InC3, CallOf;
    if cuts != [] {
      var front, read := Front(cuts), Last(cuts);
      Regroup3(Total(front), read.bytes, later);
      ShutIfRefused(client, tail, front, read.bytes + later);
      ReadsStand(client, tail, front, read.bytes + later);
      StandsBefore(client, Before(front), |Total(front)|, ReadRun(front).progress.state);
      ReadsStand(client, tail, cuts, later);
      StandsBefore(client, Before(cuts), |Total(cuts)|, ReadRun(cuts).progress.state);
      ShutAfterRead(ReadRun(front), read);
    }
  }

  lemma SixReplies()
    ensures Script(FcPublish) == [S01, S2, AcknowledgeSize, PeerBandwidth, SetChunkSizeReply, ConnectResult]
  {
    assert Script(SetChunkSize) == [S01, S2];
  }

  /** A client's handshake, whatever the reads: it has succeeded if and only if all of it was received, and
      releaseStream before the last read. Then the authentication was asked for once, what follows the
      handshake is unread, and all replies are sent if and only if it was not refused and no send failed. */
  lemma HandshakeSucceeds(client: Client, tail: seq<Byte>, cuts: seq<Read>, later: seq<Byte>)
    requires client.Valid() && Total(cuts) + later == client.Bytes() + tail && !CutsC3(client, cuts)
    ensures var l := ReadRun(cuts);
      && (l.takesBody <==> |Total(cuts)| >= |client.Bytes()| && Before(cuts) >= UpToRelease(client))
      && (l.takesBody ==>
          && l.progress.state == Success && l.progress.buf == Total(cuts)[|client.Bytes()|..] && l.progress.asked == 1
          && l.sent <= Script(Success) && (l.sent == Script(Success) <==> !Refused(client, cuts) && !Broken(cuts))
          && (Refused(client, cuts) && !Broken(cuts) ==> l.sent == Script(FcPublish)))
  {
    hide Client.Piece, Client.Valid, Begins, Stands, CutsC3, Script;
    ReadsStand(client, tail, cuts, later);
    StandsBefore(client, Before(cuts), |Total(cuts)|, ReadRun(cuts).progress.state);
    TakesBodyAtSuccess(cuts);
    SentIs(cuts);
    SixReplies();
    FullScript();
    ShutIfRefused(client, tail, cuts, later);
    BytesLength(client);
    BeginsGrows(client, 5, 8);
  }

  /** Before releaseStream is complete there is no C3 packet. */
  lemma {:induction false} NotCutYet(client: Client, cuts: seq<Read>)
    requires client.Valid() && Before(cuts) < UpToRelease(client)
    ensures !CutsC3(client, cuts)
  {
    if cuts != [] && Front(cuts) != [] {
      NotCutYet(client, Front(cuts));
    }
  }

  /** The read that completes releaseStream leaves everything behind it unread, however much there is: six
      replies are sent, none to createStream and none to publish. */
  lemma HandshakePauses(client: Client, tail: seq<Byte>, cuts: seq<Read>, later: seq<Byte>)
    requires client.Valid() && Total(cuts) + later == client.Bytes() + tail
    requires Before(cuts) < UpToRelease(client) <= |Total(cuts)|
    ensures var l := ReadRun(cuts);
      && l.progress == Progress(FcPublish, Total(cuts)[UpToRelease(client)..], Script(FcPublish), 1)
      && (!Broken(cuts) ==> l.sent == Script(FcPublish))
  {
    hide Client.Piece, Client.Valid, Begins;
    SentIs(cuts);
    NotCutYet(client, cuts);
    ReadsStand(client, tail, cuts, later);
  }

  /** Once all of it was received any further read completes it; but the client may be waiting for a reply. */
  lemma OneMoreRead(client: Client, tail: seq<Byte>, cuts: seq<Read>, read: Read, later: seq<Byte>)
    requires client.Valid() && Total(cuts) + (read.bytes + later) == client.Bytes() + tail && !CutsC3(client, cuts)
    requires |Total(cuts)| >= |client.Bytes()|
    ensures ReadRun(cuts + [read]).takesBody
    ensures ReadRun(cuts + [read]).progress.buf == (Total(cuts) + read.bytes)[|client.Bytes()|..]
  {
    hide Client.Piece, Client.Valid, Begins, ReadRun;
    var all := cuts + [read];
    assert Front(all) == cuts && Last(all) == read;
    Regroup3(Total(cuts), read.bytes, later);
    BytesLength(client);
    BeginsGrows(client, 5, 8);
    BeginsGrows(client, 7, 8);
    HandshakeSucceeds(client, tail, all, later);
  }

  lemma ThreeReads(a: Read, b: Read, c: Read)
    ensures Total([a]) == a.bytes && Total([a, b]) == a.bytes + b.bytes
    ensures Total([a, b, c]) == a.bytes + b.bytes + c.bytes && Before([a, b, c]) == |a.bytes + b.bytes|
    ensures Front([a, b, c]) == [a, b] && Front([a, b]) == [a] && Front([a]) == []
  {
    assert [] + a.bytes == a.bytes;
    assert [a, b, c][..2] == [a, b] && [a, b][..1] == [a] && [a][..0] == [];
    assert Total([a]) == a.bytes;
    assert Total([a, b]) == Total([a]) + b.bytes;
  }

  lemma GreetingPieces(client: Client)
    requires client.Valid()
    ensures client.Piece(0) == client.c01 && client.Piece(1) == client.c2
    ensures client.Piece(2) != []
  {
    PieceTaken(client, SetChunkSize, [], PackHeader([0, 0, 0], [0, 0, 0], 0));
  }

  lemma FirstPieces(client: Client)
    requires client.Valid()
    ensures |client.c01 + client.c2| < UpToRelease(client)
    ensures client.Bytes() == client.c01 + client.c2 + client.Due(2)
  {
    GreetingPieces(client);
    hide Client.Due, Client.Piece, Client.Valid;
    DueIs(client, 0);
    DueIs(client, 1);
    Regroup3(client.c01, client.c2, client.Due(2));
    assert Begins(client, 1) == Begins(client, 0) + |client.Piece(0)|;
    assert Begins(client, 2) == Begins(client, 1) + |client.Piece(1)|;
    assert Begins(client, 3) == Begins(client, 2) + |client.Piece(2)|;
    BeginsGrows(client, 3, 5);
  }

  /** An input on which the handshake stalls, for every client: it waits for S0 and S1, then for S2, and sends
      everything else at once. Nothing is missing, and the state is FCPublish until the client sends more;
      but it is waiting for the answer to createStream. */
  lemma RestAtOnceStalls(client: Client, packs: Packs)
    requires client.Valid()
    ensures var cuts := [Read(client.c01, packs, true, ALL), Read(client.c2, packs, true, ALL),
                         Read(client.Due(2), packs, true, ALL)];
      && Total(cuts) == client.Bytes()
      && ReadRun(cuts).progress == Progress(FcPublish, client.Due(5), Script(FcPublish), 1)
      && ReadRun(cuts).sent == [S01, S2, AcknowledgeSize, PeerBandwidth, SetChunkSizeReply, ConnectResult]
  {
    hide Client.Piece, Client.Valid, Client.Bytes, Client.Due, ReadRun, Script, Total, Begins, Before;
    var a, b := Read(client.c01, packs, true, ALL), Read(client.c2, packs, true, ALL);
    var c := Read(client.Due(2), packs, true, ALL);
    var cuts := [a, b, c];
    NothingBreaks(cuts);
    ThreeReads(a, b, c);
    FirstPieces(client);
    BytesLength(client);
    BeginsGrows(client, 5, 8);
    DuePart(client, 5);
    NothingInFront(client.Bytes());
    HandshakePauses(client, [], cuts, []);
    FrontAndRest(client.Bytes()[..Begins(client, 5)], client.Due(5));
    SixReplies();
  }

  // ---------------------------------------------------------------- a conversation

  /** What is to be sent when the first `k` pieces are in: S0 and S1 behind C0 and C1, S2 behind C2, four messages
      behind connect, one behind createStream and one behind publish. */
  function Answers(k: nat): seq<Reply>
    requires k <= 8
  {
    if k == 0 then []
    else if k == 1 then [S01]
    else if k <= 3 then [S01, S2]
    else if k <= 6 then [S01, S2, AcknowledgeSize, PeerBandwidth, SetChunkSizeReply, ConnectResult]
    else if k == 7 then [S01, S2, AcknowledgeSize, PeerBandwidth, SetChunkSizeReply, ConnectResult, CreateResult]
    else [S01, S2, AcknowledgeSize, PeerBandwidth, SetChunkSizeReply, ConnectResult, CreateResult, PublishStart]
  }

  lemma ScriptIsAnswers(s: Shake)
    requires Going(s)
    ensures Script(s) == Answers(Rank(s))
  {
    assert Script(C2) == [S01] && Script(SetChunkSize) == [S01, S2];
    SixReplies();
    FullScript();
    assert Script(ReleaseStream) == Script(FcPublish) == Script(CreateStream);
    assert Script(Publish) == Script(FcPublish) + [CreateResult];
  }

  lemma AnswersGrow(j: nat, k: nat)
    requires j <= k <= 8
    ensures Answers(j) <= Answers(k)
  {
  }

  function StateOf(k: nat): (s: Shake)
    requires k < 8
    ensures Rank(s) == k
  {
    match k
    case 0 => C01 case 1 => C2 case 2 => SetChunkSize case 3 => Connect case 4 => ReleaseStream
    case 5 => FcPublish case 6 => CreateStream case _ => Publish
  }

  lemma PieceNotEmpty(client: Client, k: nat)
    requires client.Valid() && k < 8
    ensures client.Piece(k) != []
  {
    PieceTaken(client, StateOf(k), [], PackHeader([0, 0, 0], [0, 0, 0], 0));
  }

  lemma {:induction false} BeginsStrictly(client: Client, j: nat, k: nat)
    requires client.Valid() && j <= 8 && k <= 8
    ensures j < k ==> Begins(client, j) < Begins(client, k) && Begins(client, j + 1) <= Begins(client, k)
    decreases k
  {
    hide Client.Piece, Client.Valid;
    if j < k {
      PieceNotEmpty(client, k - 1);
      BeginsStrictly(client, j, k - 1);
    }
  }

  lemma TotalGrows(cuts: seq<Read>)
    ensures Before(cuts) <= |Total(cuts)|
  {
  }

  /** Where a handshake stands that has exactly the first `k` pieces. */
  lemma StandsBehind(client: Client, before: nat, s: Shake, k: nat)
    requires client.Valid() && k <= 8 && before <= Begins(client, k) && Stands(client, before, Begins(client, k), s)
    ensures Rank(s) == if k > 5 && before < UpToRelease(client) then 5 else k
  {
    hide Client.Piece, Client.Valid, Begins;
    BeginsStrictly(client, k, Rank(s));
    BeginsStrictly(client, Rank(s), k);
    BeginsStrictly(client, k, 5);
    BeginsStrictly(client, 5, k);
    BeginsStrictly(client, k, 8);
  }

  /** Exactly the first `k` pieces are in: their answers have been sent, and no other, except that the read
      that brings releaseStream is answered no further. */
  lemma PiecesAnswered(client: Client, tail: seq<Byte>, cuts: seq<Read>, later: seq<Byte>, k: nat)
    requires client.Valid() && Total(cuts) + later == client.Bytes() + tail && !CutsC3(client, cuts)
    requires k <= 8 && |Total(cuts)| == Begins(client, k) && !Refused(client, cuts) && !Broken(cuts)
    ensures ReadRun(cuts).sent
      == if k > 5 && Before(cuts) < UpToRelease(client) then Answers(5) else Answers(k)
  {
    hide Client.Piece, Client.Valid, Begins, CutsC3, Script, Answers, Refused, Stands, Broken, ReadRun, Total;
    ReadsStand(client, tail, cuts, later);
    ShutIfRefused(client, tail, cuts, later);
    SentIs(cuts);
    var s := ReadRun(cuts).progress.state;
    ScriptIsAnswers(s);
    TotalGrows(cuts);
    StandsBehind(client, Before(cuts), s, k);
  }

  /** How many replies the client waits for before it sends piece `k`: the answer to everything before. */
  function AwaitedBefore(k: nat): nat
    requires k < 8
  {
    |Answers(k)|
  }

  /** A client that sends a piece only when it has the answers to those before. */
  predicate Polite(client: Client, cuts: seq<Read>)
    requires client.Valid()
  {
    cuts != [] ==>
      && Polite(client, Front(cuts))
      && forall k :: 0 <= k < 8 && Begins(client, k) < |Total(cuts)| ==> |ReadRun(Front(cuts)).sent| >= AwaitedBefore(k)
  }

  lemma NotCutBefore(client: Client, cuts: seq<Read>)
    requires client.Valid() && cuts != [] && !CutsC3(client, cuts)
    ensures !CutsC3(client, Front(cuts))
  {
  }

  lemma SevenAnswered(client: Client, tail: seq<Byte>, cuts: seq<Read>, later: seq<Byte>)
    requires client.Valid() && Total(cuts) + later == client.Bytes() + tail && !CutsC3(client, cuts)
    requires |ReadRun(cuts).sent| >= 7
    ensures |Total(cuts)| >= Begins(client, 7)
  {
    hide Client.Piece, Client.Valid, Begins, ReadRun, CutsC3, Script;
    ReadsStand(client, tail, cuts, later);
    SentIs(cuts);
    var s := ReadRun(cuts).progress.state;
    ScriptIsAnswers(s);
    if Rank(s) >= 7 {
      BeginsGrows(client, 7, Rank(s));
    }
  }

  /** If such a client gets to send everything, its handshake is complete. */
  lemma PoliteSucceeds(client: Client, tail: seq<Byte>, cuts: seq<Read>, later: seq<Byte>)
    requires client.Valid() && Total(cuts) + later == client.Bytes() + tail && !CutsC3(client, cuts)
    requires Polite(client, cuts) && |Total(cuts)| >= |client.Bytes()|
    ensures ReadRun(cuts).takesBody
  {
    hide Client.Piece, Client.Valid, Begins, ReadRun, Stands, CutsC3;
    BytesLength(client);
    BeginsStrictly(client, 7, 8);
    BeginsGrows(client, 5, 7);
    assert AwaitedBefore(7) == 7;
    assert cuts != [];
    var front := Front(cuts);
    Regroup3(Total(front), Last(cuts).bytes, later);
    assert !CutsC3(client, front) by {
      NotCutBefore(client, cuts);
    }
    assert |ReadRun(front).sent| >= 7;
    SevenAnswered(client, tail, front, Last(cuts).bytes + later);
    HandshakeSucceeds(client, tail, cuts, later);
  }

  /** It always gets to send the next piece, unless one read brings the end of releaseStream and all of what
      follows up to createStream: then it waits for the answer to createStream, and the server for a read. */
  lemma GoesOnIff(client: Client, tail: seq<Byte>, cuts: seq<Read>, later: seq<Byte>, k: nat)
    requires client.Valid() && Total(cuts) + later == client.Bytes() + tail && !CutsC3(client, cuts)
    requires k < 8 && |Total(cuts)| == Begins(client, k) && !Refused(client, cuts) && !Broken(cuts)
    ensures |ReadRun(cuts).sent| >= AwaitedBefore(k) <==> !(k == 7 && Before(cuts) < UpToRelease(client))
  {
    hide Client.Piece, Client.Valid, Begins, CutsC3, Refused, ReadRun;
    PiecesAnswered(client, tail, cuts, later, k);
  }

  /** Reads that bring exactly the first `k` pieces, with nothing refused and no send failing. */
  predicate UpTo(client: Client, cuts: seq<Read>, k: nat)
    requires client.Valid() && k <= 8
  {
    && |client.Bytes()| == Begins(client, 8) >= Begins(client, k) && Total(cuts) == client.Bytes()[..Begins(client, k)]
    && !Broken(cuts) && !Refused(client, cuts) && !CutsC3(client, cuts) && Polite(client, cuts)
  }

  function PiecesRead(client: Client, j: nat, k: nat, packs: Packs): Read
    requires client.Valid() && j <= k <= 8
    requires |client.Bytes()| == Begins(client, 8) >= Begins(client, k) >= Begins(client, j)
  {
    Read(client.Bytes()[Begins(client, j)..Begins(client, k)], packs, true, ALL)
  }

  lemma OneMoreBreaks(cuts: seq<Read>, read: Read)
    requires !Broken(cuts) && read.passes >= ALL
    ensures !Broken(cuts + [read])
  {
    hide Loop, Script;
    var all := cuts + [read];
    assert Front(all) == cuts && Last(all) == read;
    var l := ReadRun(cuts);
    LoopFollowsScript(l.progress.state, l.progress.buf + read.bytes, read.packs);
    FewReplies(CallOf(l, read).state);
  }

  /** Whole pieces do not cut the C3 packet. */
  lemma WholePieces(client: Client, k: nat)
    requires client.Valid() && k <= 8
    ensures !InC3(client, Begins(client, k))
  {
    hide Client.Piece, Client.Valid, Begins;
    BeginsStrictly(client, 6, k);
    BeginsStrictly(client, k, 7);
    BeginsStrictly(client, 7, k);
    BeginsStrictly(client, k, 6);
  }

  lemma AnsweredUpTo(client: Client, cuts: seq<Read>, j: nat, k: nat)
    requires client.Valid() && j < k <= 8 && j <= 5 && UpTo(client, cuts, j) && AwaitedBefore(k - 1) <= |Answers(j)|
    ensures forall i :: 0 <= i < 8 && Begins(client, i) < Begins(client, k) ==> |ReadRun(cuts).sent| >= AwaitedBefore(i)
  {
    hide Client.Piece, Client.Valid, Client.Bytes, Begins, ReadRun, Broken, Answers, Polite, CutsC3, Refused, Total;
    var bytes := client.Bytes();
    assert Total(cuts) + bytes[Begins(client, j)..] == bytes + [];
    PiecesAnswered(client, [], cuts, bytes[Begins(client, j)..], j);
    forall i | 0 <= i < 8 && Begins(client, i) < Begins(client, k)
      ensures |ReadRun(cuts).sent| >= AwaitedBefore(i)
    {
      BeginsStrictly(client, k, i);
      AnswersGrow(i, k - 1);
    }
  }

  /** The client may send the pieces up to `k` at once when the answers up to `j` are all it waits for. */
  lemma PoliteStep(client: Client, cuts: seq<Read>, j: nat, k: nat, packs: Packs)
    requires client.Valid() && j < k <= 8 && j <= 5 && UpTo(client, cuts, j) && AwaitedBefore(k - 1) <= |Answers(j)|
    ensures |client.Bytes()| == Begins(client, 8) >= Begins(client, k) >= Begins(client, j)
    ensures UpTo(client, cuts + [PiecesRead(client, j, k, packs)], k)
    ensures Before(cuts + [PiecesRead(client, j, k, packs)]) == Begins(client, j)
  {
    hide Client.Piece, Client.Valid, Client.Bytes, Begins, ReadRun, Broken, Answers, InC3, AwaitedBefore, UpToRelease;
    BeginsGrows(client, j, k);
    BeginsGrows(client, k, 8);
    var read, bytes := PiecesRead(client, j, k, packs), client.Bytes();
    var all := cuts + [read];
    assert Front(all) == cuts && Last(all) == read;
    assert bytes[..Begins(client, j)] + read.bytes == bytes[..Begins(client, k)];
    OneMoreBreaks(cuts, read);
    AnsweredUpTo(client, cuts, j, k);
    WholePieces(client, k);
  }

  lemma NothingIsPolite(client: Client)
    requires client.Valid()
    ensures UpTo(client, [], 0)
  {
    hide Client.Piece, Client.Valid;
    BytesLength(client);
    BeginsGrows(client, 0, 8);
  }

  /** Such a read, for every client that waits for S0 and S1, then for S2, then for the result of connect, and
      then sends releaseStream, FCPublish and createStream together: the answer to createStream does not come. */
  lemma PoliteStalls(client: Client, packs: Packs)
    requires client.Valid()
    ensures exists cuts: seq<Read> ::
      && |cuts| == 4 && Polite(client, cuts) && !CutsC3(client, cuts) && !Refused(client, cuts) && !Broken(cuts)
      && |Total(cuts)| == Begins(client, 7) && Total(cuts) <= client.Bytes()
      && ReadRun(cuts).sent == [S01, S2, AcknowledgeSize, PeerBandwidth, SetChunkSizeReply, ConnectResult]
  {
    hide Client.Piece, Client.Valid, Begins, ReadRun, Broken, Polite, CutsC3, Refused, Total, Before;
    NothingIsPolite(client);
    PoliteStep(client, [], 0, 1, packs);
    var one := [] + [PiecesRead(client, 0, 1, packs)];
    PoliteStep(client, one, 1, 2, packs);
    var two := one + [PiecesRead(client, 1, 2, packs)];
    PoliteStep(client, two, 2, 4, packs);
    var three := two + [PiecesRead(client, 2, 4, packs)];
    PoliteStep(client, three, 4, 7, packs);
    var four := three + [PiecesRead(client, 4, 7, packs)];
    BeginsStrictly(client, 4, 5);
    var rest := client.Bytes()[Begins(client, 7)..];
    assert Total(four) + rest == client.Bytes() + [];
    PiecesAnswered(client, [], four, rest, 7);
    assert ReadRun(four).sent == Answers(5);
  }

  // ---------------------------------------------------------------- the authentication

  /** A refused publisher is not kept from publishing: Shutdown does not end the reads. The connection takes
      the body of a publisher that was refused if and only if its handshake is complete, as ever; but no reply
      passes Send any more. */
  lemma RefusedIsServedIff(client: Client, tail: seq<Byte>, cuts: seq<Read>, later: seq<Byte>)
    requires client.Valid() && Total(cuts) + later == client.Bytes() + tail && !CutsC3(client, cuts)
    ensures ReadRun(cuts).shut && ReadRun(cuts).takesBody
      <==> && (Refused(client, cuts) || Broken(cuts))
           && |Total(cuts)| >= |client.Bytes()| && Before(cuts) >= UpToRelease(client)
    ensures Refused(client, cuts) && !Broken(cuts) ==> ReadRun(cuts).sent == Script(FcPublish)
  {
    hide Client.Valid, Begins, CutsC3, Refused, ReadRun;
    ShutIfRefused(client, tail, cuts, later);
    HandshakeSucceeds(client, tail, cuts, later);
    SentIs(cuts);
  }

  /** What the authentication says, and how the sends fare, decides which replies are sent (SentIs), but not
      what is parsed and not who takes the body, for any bytes. */
  lemma {:induction false} RefusalStopsNoParsing(cuts: seq<Read>, cuts': seq<Read>)
    requires |cuts| == |cuts'|
    requires forall i :: 0 <= i < |cuts| ==>
        cuts[i] == cuts'[i].(authentic := cuts[i].authentic, passes := cuts[i].passes)
    ensures var l, l' := ReadRun(cuts), ReadRun(cuts');
      && (l.progress.state, l.progress.buf, l.progress.asked) == (l'.progress.state, l'.progress.buf, l'.progress.asked)
      && l.takesBody == l'.takesBody
  {
    hide Loop, Script;
    if cuts != [] {
      RefusalStopsNoParsing(Front(cuts), Front(cuts'));
    }
  }

  lemma TwoReads(a: Read, b: Read)
    ensures Total([a]) == a.bytes && Total([a, b]) == a.bytes + b.bytes
    ensures Before([a, b]) == |a.bytes| && Before([a]) == 0
    ensures Front([a, b]) == [a] && Front([a]) == [] && Last([a, b]) == b && Last([a]) == a
  {
    assert [] + a.bytes == a.bytes;
    assert [a, b][..1] == [a] && [a][..0] == [];
    assert Total([a]) == a.bytes;
  }

  /** An input, for every client: it is refused behind releaseStream, and sends the rest. */
  lemma RefusedButServed(client: Client, packs: Packs)
    requires client.Valid()
    ensures UpToRelease(client) <= |client.Bytes()|
    ensures var n := UpToRelease(client);
      var cuts := [Read(client.Bytes()[..n], packs, false, ALL), Read(client.Bytes()[n..], packs, false, ALL)];
      && ReadRun(cuts).shut && ReadRun(cuts).takesBody
      && ReadRun(cuts).sent == [S01, S2, AcknowledgeSize, PeerBandwidth, SetChunkSizeReply, ConnectResult]
  {
    hide Client.Piece, Client.Valid, Client.Bytes, Begins, ReadRun;
    BytesLength(client);
    BeginsGrows(client, 5, 8);
    BeginsGrows(client, 7, 8);
    FirstPieces(client);
    var n := UpToRelease(client);
    var a, b := Read(client.Bytes()[..n], packs, false, ALL), Read(client.Bytes()[n..], packs, false, ALL);
    TwoReads(a, b);
    assert Total([a, b]) + [] == client.Bytes() + [];
    NotCutYet(client, [a]);
    NothingBreaks([a, b]);
    RefusedIsServedIff(client, [], [a, b], []);
    assert Refused(client, [a]);
    SixReplies();
  }

  // ---------------------------------------------------------------- a C3 packet that is cut

  lemma ByteOfC3(packs: Packs)
    ensures var l := Loop(CreateStream, [0xc3], packs); l.state == Publish && l.rest == []
  {
    C3IsTaken(CreateStream, [0xc3], packs.For(CreateStream));
    NothingThere(packs);
  }

  /** A full header of zeros announces an empty message. */
  lemma ZerosAreAMessage(buf: seq<Byte>, packs: Packs)
    requires |buf| >= 12 && forall i :: 0 <= i < 12 ==> buf[i] == 0
    ensures var l := Loop(Publish, buf, packs); l.state == Success && l.rest == buf[12..]
  {
    var p := ParseHeader(packs.For(Publish), buf);
    assert p.length == 12 && p.header.dataSize == [0, 0, 0];
    ParseMessageNeverFails(packs.For(Publish), buf);
    StepAtEnd(Success, buf[12..], packs.For(Success));
  }

  lemma MessageAndByteOfC3(client: Client, packs: Packs)
    requires client.Valid()
    ensures var l := Loop(FcPublish, client.Piece(5) + [0xc3], packs); l.state == Publish && l.rest == []
  {
    hide Client.Piece, Client.Valid;
    PieceTaken(client, FcPublish, [0xc3], packs.For(FcPublish));
    LoopIs(FcPublish, client.Piece(5) + [0xc3], packs);
    ByteOfC3(packs);
  }

  lemma AfterReadIs(l: Link, read: Read)
    requires OnScript(l.progress)
    ensures var q, r := AfterRead(l, read).progress, Loop(l.progress.state, l.progress.buf + read.bytes, read.packs);
      q.state == r.state && q.buf == r.rest
  {
    hide Loop;
  }

  lemma LastPieces(client: Client)
    requires client.Valid() && client.c3.Some?
    ensures client.Due(5) == client.Piece(5) + client.c3.value + client.Piece(7)
    ensures Begins(client, 6) == UpToRelease(client) + |client.Piece(5)|
    ensures Begins(client, 7) == Begins(client, 6) + 26
  {
    assert |client.Piece(6)| == 26;
    hide Client.Valid;
    DueIs(client, 5);
    DueIs(client, 6);
    DueIs(client, 7);
    DueIs(client, 8);
    assert client.Piece(7) + [] == client.Piece(7);
    Regroup3(client.Piece(5), client.c3.value, client.Piece(7));
  }

  function Zeros(n: nat): seq<Byte> {
    seq(n, _ => 0)
  }

  /** The reads of a client with zeros in its C3 packet, whose first byte comes alone. */
  function CutOne(client: Client, tail: seq<Byte>, packs: Packs): seq<Read>
    requires client.Valid() && UpToRelease(client) <= |client.Bytes()|
  {
    [Read(client.Bytes()[..UpToRelease(client)], packs, true, ALL), Read(client.Piece(5) + [0xc3], packs, true, ALL),
     Read(Zeros(25) + client.Piece(7) + tail, packs, true, ALL)]
  }

  lemma UpToReleaseIs(client: Client)
    requires client.Valid()
    ensures UpToRelease(client) == Begins(client, 5)
  {
  }

  lemma CutOneIsCut(client: Client, tail: seq<Byte>, packs: Packs)
    requires client.Valid() && client.c3 == Some([0xc3] + Zeros(25))
    ensures UpToRelease(client) <= |client.Bytes()|
    ensures var cuts := CutOne(client, tail, packs);
      Total(cuts) == client.Bytes() + tail && Before(cuts[..1]) < UpToRelease(client) && CutsC3(client, cuts)
  {
    hide Client.Valid, Client.Bytes, Client.Piece, Begins, UpToRelease;
    DuePart(client, 5);
    assert UpToRelease(client) == Begins(client, 5) by {
      UpToReleaseIs(client);
    }
    LastPieces(client);
    FirstPieces(client);
    var cuts := CutOne(client, tail, packs);
    ThreeReads(cuts[0], cuts[1], cuts[2]);
    TwoReads(cuts[0], cuts[1]);
    assert cuts == [cuts[0], cuts[1], cuts[2]] && cuts[..1] == [cuts[0]];
    assert Total(cuts) == client.Bytes() + tail;
    assert CutsC3(client, [cuts[0], cuts[1]]);
  }

  /** From the first byte on: a read that brings one byte of the C3 packet derails the handshake. With zeros
      in the packet the rest of it is taken for the publish message, and 13 of its bytes and the publish
      message are left for the body parser, in front of the stream. */
  lemma ShortC3Derails(client: Client, tail: seq<Byte>, packs: Packs)
    requires client.Valid() && client.c3 == Some([0xc3] + Zeros(25))
    ensures UpToRelease(client) <= |client.Bytes()|
    ensures var cuts := CutOne(client, tail, packs);
      && Total(cuts) == client.Bytes() + tail && CutsC3(client, cuts)
      && ReadRun(cuts).takesBody && ReadRun(cuts).progress.buf == Zeros(13) + client.Piece(7) + tail
  {
    hide Client.Valid, Client.Bytes, Client.Piece, UpToRelease, Loop, AfterRead, CutsC3;
    CutOneIsCut(client, tail, packs);
    var cuts, n := CutOne(client, tail, packs), UpToRelease(client);
    var a, b, c := cuts[0], cuts[1], cuts[2];
    assert cuts == [a, b, c] && cuts[..1] == [a];
    ThreeReads(a, b, c);
    TwoReads(a, b);
    assert Total([a]) + (client.Bytes()[n..] + tail) == client.Bytes() + tail;
    HandshakePauses(client, tail, [a], client.Bytes()[n..] + tail);
    var one := ReadRun([a]);
    assert one.progress.buf == [] && [] + b.bytes == b.bytes;
    AfterReadIs(one, b);
    MessageAndByteOfC3(client, packs);
    var two := AfterRead(one, b);
    assert ReadRun([a, b]) == two;
    assert two.progress.buf == [] && [] + c.bytes == c.bytes;
    AfterReadIs(two, c);
    ZerosAreAMessage(c.bytes, packs);
    assert c.bytes[12..] == Zeros(13) + client.Piece(7) + tail;
    TakesBodyAtSuccess(cuts);
  }
}
