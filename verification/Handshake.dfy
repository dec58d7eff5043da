/**
 The handshake of RtmpManager::ParseShakeHand and RtmpServerConnection::ShakeHand as a state machine:
 C0/C1, C2 (section 5.2 of the RTMP Specification 1.0), then six messages in a fixed order.
 */
module Handshake {
  import opened Bytes
  import opened RtmpCodec

  /** `ShakeHandPackType`: the states, and what one step reports. */
  datatype Shake =
    | C01 | C2 | SetChunkSize | Connect | ReleaseStream | FcPublish | CreateStream | Publish
    | Success | Failed | DataNotEnough

  const C01_LENGTH := 1537
  const C2_LENGTH := 1536
  const CREATE_STREAM_C3: Byte := 0xc3
  const CREATE_STREAM_C3_LENGTH := 26

  function Rank(s: Shake): nat {
    match s
    case C01 => 0 case C2 => 1 case SetChunkSize => 2 case Connect => 3 case ReleaseStream => 4
    case FcPublish => 5 case CreateStream => 6 case Publish => 7 case Success => 8
    case Failed => 9 case DataNotEnough => 10
  }

  /** The states of a handshake that has not failed. */
  predicate Going(s: Shake) { Rank(s) <= 8 }

  function NextOf(s: Shake): Shake
    requires Rank(s) < 8
  {
    match s
    case C01 => C2 case C2 => SetChunkSize case SetChunkSize => Connect case Connect => ReleaseStream
    case ReleaseStream => FcPublish case FcPublish => CreateStream case CreateStream => Publish case Publish => Success
  }

  /** ParseHeaderAndBody on a pack without a body: the `ssize_t` result, the pack, and the unread bytes.
      Nothing is consumed unless header and body are complete. */
  datatype MessageParse = MessageParse(consumed: int, header: PackHeader, body: seq<Byte>, rest: seq<Byte>)

  function ParseMessage(pack: PackHeader, buf: seq<Byte>): MessageParse {
    var parse, header := DecodeLength(buf), ParseHeader(pack, buf).header;
    if parse < 0 then MessageParse(-1, header, [], buf)
    else if parse == 0 || header.Size() + parse > |buf| then MessageParse(0, header, [], buf)
    else MessageParse(header.Size() + parse, header, buf[parse..header.Size() + parse], buf[header.Size() + parse..])
  }

  lemma ParseMessageNeverFails(pack: PackHeader, buf: seq<Byte>)
    ensures var p, m := ParseHeader(pack, buf), ParseMessage(pack, buf);
      && m.consumed >= 0 && m.rest == buf[m.consumed..]
      && m.consumed == if p.length == 0 || p.header.Size() + p.length > |buf| then 0 else p.header.Size() + p.length
  {
    DecodeNeverFails(pack, buf);
  }

  /** What one step reports, the state and the unread bytes afterwards. */
  datatype StepResult = StepResult(reported: Shake, state: Shake, rest: seq<Byte>)

  predicate IsC3(s: Shake, buf: seq<Byte>) {
    s == CreateStream && buf != [] && buf[0] == CREATE_STREAM_C3
  }

  /** ParseShakeHand; `pack` is the header of the RtmpPack that the state parses into, before it does. */
  function Step(s: Shake, buf: seq<Byte>, pack: PackHeader): StepResult {
    if Rank(s) >= 8 then StepResult(s, s, buf)
    else if s == C01 then
      if |buf| < C01_LENGTH then StepResult(DataNotEnough, s, buf) else StepResult(s, NextOf(s), buf[C01_LENGTH..])
    else if s == C2 then
      if |buf| < C2_LENGTH then StepResult(DataNotEnough, s, buf) else StepResult(s, NextOf(s), buf[C2_LENGTH..])
    else if IsC3(s, buf) then
      StepResult(s, NextOf(s), buf[Min(CREATE_STREAM_C3_LENGTH, |buf|)..])
    else
      var m := ParseMessage(pack, buf);
      if m.consumed > 0 then StepResult(s, NextOf(s), m.rest)
      else if m.consumed == 0 then StepResult(DataNotEnough, s, buf)
      else StepResult(Failed, Failed, buf)
  }

  /** The branch that fails is dead: a step goes on to the next state, or lacks data and changes nothing. */
  lemma StepNeverFails(s: Shake, buf: seq<Byte>, pack: PackHeader)
    requires Rank(s) < 8
    ensures var r := Step(s, buf, pack);
      && |r.rest| <= |buf| && r.reported != Failed && Going(r.state)
      && ((r.reported, r.state) == (s, NextOf(s)) || r == StepResult(DataNotEnough, s, buf))
      && (r.reported == s ==> |r.rest| < |buf|)
  {
    ParseMessageNeverFails(pack, buf);
  }

  // ---------------------------------------------------------------- the loop of ShakeHand

  /** The byte strings the server sends. */
  datatype Reply =
    | S01 | S2
    | AcknowledgeSize | PeerBandwidth | SetChunkSizeReply | ConnectResult
    | CreateResult
    | PublishStart

  function RepliesTo(s: Shake): seq<Reply> {
    match s
    case C01 => [S01]
    case C2 => [S2]
    case Connect => [AcknowledgeSize, PeerBandwidth, SetChunkSizeReply, ConnectResult]
    case CreateStream => [CreateResult]
    case Publish => [PublishStart]
    case _ => []
  }

  /** What TcpConnection::Send lets through: nothing once Shutdown was called, and else as many as `passes`:
      the send behind these fails for good, which drops its payload and calls Shutdown. */
  function Passed(shut: bool, passes: nat, replies: seq<Reply>): seq<Reply> {
    if shut then [] else replies[..Min(passes, |replies|)]
  }

  /** How many more would pass. */
  function Left(shut: bool, passes: nat, replies: seq<Reply>): nat {
    if shut then passes else passes - Min(passes, |replies|)
  }

  lemma PassedTwice(shut: bool, passes: nat, a: seq<Reply>, b: seq<Reply>)
    ensures var shut', passes' := shut || passes < |a|, Left(shut, passes, a);
      && Passed(shut, passes, a + b) == Passed(shut, passes, a) + Passed(shut', passes', b)
      && Left(shut, passes, a + b) == Left(shut', passes', b)
      && (shut || passes < |a + b| <==> shut' || passes' < |b|)
  {
  }

  datatype ShakeHandResult = AuthenticateNow | Succeeded | HasFailed | NotEnough

  datatype LoopResult = LoopResult(result: ShakeHandResult, state: Shake, rest: seq<Byte>, replies: seq<Reply>)

  /** The header fields of the packs each state parses into: uninitialised stack memory or a member. */
  datatype Packs = Packs(chunkSize: PackHeader, connect: PackHeader, release: PackHeader,
                         fcPublish: PackHeader, createStream: PackHeader, publish: PackHeader) {
    function For(s: Shake): PackHeader {
      match s
      case Connect => connect
      case ReleaseStream => release
      case FcPublish => fcPublish
      case CreateStream => createStream
      case Publish => publish
      case _ => chunkSize
    }
  }

  /** One call of ShakeHand. It leaves for the authentication as soon as releaseStream is in. */
  function Loop(s: Shake, buf: seq<Byte>, packs: Packs): LoopResult
    requires s != DataNotEnough
    decreases 10 - Rank(s)
  {
    var r := Step(s, buf, packs.For(s));
    match r.reported
    case Success => LoopResult(Succeeded, r.state, r.rest, [])
    case Failed => LoopResult(HasFailed, r.state, r.rest, [])
    case DataNotEnough => LoopResult(NotEnough, r.state, r.rest, [])
    case ReleaseStream => LoopResult(AuthenticateNow, r.state, r.rest, [])
    case _ =>
      var next := Loop(r.state, r.rest, packs);
      next.(replies := RepliesTo(r.reported) + next.replies)
  }

  predicate Ends(reported: Shake) {
    reported == ReleaseStream || Rank(reported) >= 8
  }

  function ResultOf(reported: Shake): ShakeHandResult
    requires Ends(reported)
  {
    if reported == ReleaseStream then AuthenticateNow
    else if reported == Success then Succeeded
    else if reported == Failed then HasFailed
    else NotEnough
  }

  lemma LoopEnds(s: Shake, buf: seq<Byte>, packs: Packs)
    requires s != DataNotEnough && Ends(Step(s, buf, packs.For(s)).reported)
    ensures var r := Step(s, buf, packs.For(s));
      Loop(s, buf, packs) == LoopResult(ResultOf(r.reported), r.state, r.rest, []) && RepliesTo(r.reported) == []
  {
    hide Step;
  }

  lemma StepAtEnd(s: Shake, buf: seq<Byte>, pack: PackHeader)
    requires Rank(s) >= 8
    ensures Step(s, buf, pack) == StepResult(s, s, buf)
  {
  }

  lemma LoopGoesOn(s: Shake, buf: seq<Byte>, packs: Packs)
    requires s != DataNotEnough && !Ends(Step(s, buf, packs.For(s)).reported)
    ensures var r := Step(s, buf, packs.For(s));
      && r.state != DataNotEnough && Rank(r.state) == Rank(s) + 1
      && var l := Loop(r.state, r.rest, packs);
         Loop(s, buf, packs) == l.(replies := RepliesTo(r.reported) + l.replies)
  {
    hide Step;
    if Rank(s) >= 8 {
      StepAtEnd(s, buf, packs.For(s));
    } else {
      StepNeverFails(s, buf, packs.For(s));
    }
  }

  lemma RepliesInOrder(a: seq<Reply>, b: seq<Reply>, c: seq<Reply>)
    ensures a + (b + c) == a + b + c && a + [] == a
  {
  }

  /** What a loop that follows the steps knows after it has sent `sent`. */
  lemma LoopAdvances(whole: LoopResult, s: Shake, buf: seq<Byte>, packs: Packs, sent: seq<Reply>)
    requires s != DataNotEnough
    requires var l := Loop(s, buf, packs); whole == l.(replies := sent + l.replies)
    ensures var r := Step(s, buf, packs.For(s));
      if Ends(r.reported) then
        whole == LoopResult(ResultOf(r.reported), r.state, r.rest, sent) && RepliesTo(r.reported) == []
      else
        && r.state != DataNotEnough && Rank(r.state) == Rank(s) + 1
        && var l := Loop(r.state, r.rest, packs);
           whole == l.(replies := sent + RepliesTo(r.reported) + l.replies)
  {
    hide Step, Loop, RepliesTo, Rank;
    var r := Step(s, buf, packs.For(s));
    if Ends(r.reported) {
      LoopEnds(s, buf, packs);
      RepliesInOrder(sent, [], []);
    } else {
      LoopGoesOn(s, buf, packs);
      RepliesInOrder(sent, RepliesTo(r.reported), Loop(r.state, r.rest, packs).replies);
    }
  }

  // ---------------------------------------------------------------- order of replies and results

  /** All replies that belong to the states before `s`. */
  function Script(s: Shake): seq<Reply>
    decreases Rank(s)
  {
    match s
    case C01 => []
    case C2 => Script(C01) + RepliesTo(C01)
    case SetChunkSize => Script(C2) + RepliesTo(C2)
    case Connect => Script(SetChunkSize)
    case ReleaseStream => Script(Connect) + RepliesTo(Connect)
    case FcPublish => Script(ReleaseStream)
    case CreateStream => Script(FcPublish)
    case Publish => Script(CreateStream) + RepliesTo(CreateStream)
    case _ => Script(Publish) + RepliesTo(Publish)
  }

  lemma ScriptOfNext(s: Shake)
    requires Rank(s) < 8
    ensures Script(NextOf(s)) == Script(s) + RepliesTo(s) && Rank(NextOf(s)) == Rank(s) + 1
  {
    assert Script(s) + [] == Script(s);
  }

  /** The state only moves forward, the replies continue the script exactly up to the new state, the
      authentication is asked for exactly when releaseStream is passed, and nothing fails. */
  predicate FollowsScript(s: Shake, r: LoopResult) {
    && Going(r.state) && Rank(s) <= Rank(r.state)
    && Script(s) + r.replies == Script(r.state)
    && r.result != HasFailed
    && (r.result == AuthenticateNow <==> Rank(s) <= Rank(ReleaseStream) < Rank(r.state))
    && (r.result == Succeeded <==> r.state == Success)
  }

  lemma FollowsScriptStep(s: Shake, next: LoopResult)
    requires Rank(s) < 8 && s != ReleaseStream && FollowsScript(NextOf(s), next)
    ensures FollowsScript(s, next.(replies := RepliesTo(s) + next.replies))
  {
    ScriptOfNext(s);
    assert Script(s) + (RepliesTo(s) + next.replies) == Script(NextOf(s)) + next.replies;
  }

  /** One call of ShakeHand. */
  lemma {:induction false} LoopFollowsScript(s: Shake, buf: seq<Byte>, packs: Packs)
    requires Going(s)
    ensures FollowsScript(s, Loop(s, buf, packs))
    decreases 10 - Rank(s)
  {
    hide Step;
    var r := Step(s, buf, packs.For(s));
    if Rank(s) == 8 {
      StepAtEnd(s, buf, packs.For(s));
    } else {
      StepNeverFails(s, buf, packs.For(s));
    }
    if Rank(s) == 8 || r.reported == DataNotEnough {
      assert Script(s) + [] == Script(s);
    } else if s == ReleaseStream {
      ScriptOfNext(s);
    } else {
      LoopFollowsScript(r.state, r.rest, packs);
      FollowsScriptStep(s, Loop(r.state, r.rest, packs));
    }
  }

  // ---------------------------------------------------------------- independence of the cuts

  /** The step that is possible does not depend on what has not arrived: the C3 packet is complete, and
      a header that leaves out its size finds the size of `ref` in the pack. */
  predicate Clean(s: Shake, buf: seq<Byte>, pack: PackHeader, ref: PackHeader) {
    if IsC3(s, buf) then |buf| >= CREATE_STREAM_C3_LENGTH
    else 2 <= Rank(s) < 8 && buf != [] ==> Fmt(buf[0]) <= 1 || pack.dataSize == ref.dataSize
  }

  lemma SizeAgrees(a: PackHeader, b: PackHeader, buf: seq<Byte>)
    requires buf != [] && (Fmt(buf[0]) <= 1 || a.dataSize == b.dataSize) && ParseHeader(a, buf).length > 0
    ensures ParseHeader(b, buf).length == ParseHeader(a, buf).length
    ensures ParseHeader(b, buf).header.dataSize == ParseHeader(a, buf).header.dataSize
  {
  }

  lemma MessageExtends(a: PackHeader, b: PackHeader, buf: seq<Byte>, ext: seq<Byte>)
    requires ParseMessage(a, buf).consumed > 0 && (Fmt(buf[0]) <= 1 || a.dataSize == b.dataSize)
    ensures var m, n := ParseMessage(a, buf), ParseMessage(b, buf + ext);
      n.consumed == m.consumed && n.rest == m.rest + ext
  {
    ParseMessageNeverFails(a, buf);
    ParseMessageNeverFails(b, buf + ext);
    SizeAgrees(a, b, buf);
    ParseHeaderExtends(b, buf, ext);
    SliceWithin(buf, ext, 0, ParseMessage(a, buf).consumed);
  }

  /** A clean step consumes the same bytes whatever follows them. */
  lemma StepExtends(s: Shake, buf: seq<Byte>, ext: seq<Byte>, a: PackHeader, b: PackHeader)
    requires Clean(s, buf, a, b) && Step(s, buf, a).reported != DataNotEnough
    ensures var r := Step(s, buf, a);
      Step(s, buf + ext, b) == r.(rest := r.rest + ext)
  {
    if Rank(s) < 8 {
      StepNeverFails(s, buf, a);
      assert (buf + ext)[0] == buf[0];
      if Rank(s) >= 2 && !IsC3(s, buf) {
        MessageExtends(a, b, buf, ext);
      } else {
        SliceWithin(buf, ext, 0, |buf| - |Step(s, buf, a).rest|);
      }
    }
  }

  /** The C3 packet is the only place where the bytes consumed depend on the cut: they do so if and
      only if fewer than 26 bytes have arrived. */
  lemma C3IndependentIff26(buf: seq<Byte>, ext: seq<Byte>, pack: PackHeader)
    requires IsC3(CreateStream, buf) && ext != []
    ensures Step(CreateStream, buf + ext, pack).rest == Step(CreateStream, buf, pack).rest + ext
      <==> |buf| >= CREATE_STREAM_C3_LENGTH
  {
    var k := Min(CREATE_STREAM_C3_LENGTH, |buf|);
    assert (buf + ext)[0] == buf[0];
    if |buf| >= CREATE_STREAM_C3_LENGTH {
      SliceWithin(buf, ext, 0, k);
    } else {
      assert |Step(CreateStream, buf + ext, pack).rest| < |ext|;
    }
  }

  /** Another call ends like this one and changes nothing. */
  predicate StandsStill(r: LoopResult, packs: Packs) {
    Going(r.state) && Loop(r.state, r.rest, packs) == LoopResult(NotEnough, r.state, r.rest, [])
  }

  /** A call that ends for lack of data leaves what the next one ends on as well. */
  lemma NotEnoughChangesNothing(s: Shake, buf: seq<Byte>, packs: Packs)
    requires Going(s) && Loop(s, buf, packs).result == NotEnough
    ensures StandsStill(Loop(s, buf, packs), packs)
    decreases 10 - Rank(s)
  {
    hide Step;
    if Rank(s) == 8 {
      StepAtEnd(s, buf, packs.For(s));
    } else {
      StepNeverFails(s, buf, packs.For(s));
      var r := Step(s, buf, packs.For(s));
      if r.reported != DataNotEnough {
        NotEnoughChangesNothing(r.state, r.rest, packs);
      }
    }
  }

  /** Whether a call goes on behind a step. */
  predicate GoesOn(s: Shake, reported: Shake) {
    Rank(s) < 8 && reported != DataNotEnough && s != ReleaseStream
  }

  /** Every step of a call is clean. */
  predicate CleanCall(s: Shake, buf: seq<Byte>, packs: Packs, ref: Packs)
    requires Going(s)
    decreases 10 - Rank(s)
  {
    && Clean(s, buf, packs.For(s), ref.For(s))
    && var r := Step(s, buf, packs.For(s));
       (GoesOn(s, r.reported) ==> (StepNeverFails(s, buf, packs.For(s)); CleanCall(r.state, r.rest, packs, ref)))
  }

  /** Where a handshake ends up on a whole stream, taken in one go. */
  datatype Position = Position(state: Shake, rest: seq<Byte>)

  function Whole(s: Shake, stream: seq<Byte>, ref: Packs): Position
    requires Going(s)
    decreases 10 - Rank(s)
  {
    var r := Step(s, stream, ref.For(s));
    if Rank(s) == 8 || r.reported == DataNotEnough then Position(s, stream)
    else
      StepNeverFails(s, stream, ref.For(s));
      Whole(r.state, r.rest, ref)
  }

  /** A clean call does not change where the whole stream leads, whatever arrives later. */
  lemma {:induction false} CallKeepsDestination(s: Shake, buf: seq<Byte>, packs: Packs, ext: seq<Byte>, ref: Packs)
    requires Going(s) && CleanCall(s, buf, packs, ref)
    ensures var r := Loop(s, buf, packs);
      Going(r.state) && Whole(r.state, r.rest + ext, ref) == Whole(s, buf + ext, ref)
    decreases 10 - Rank(s)
  {
    hide Step, Clean;
    var r := Step(s, buf, packs.For(s));
    if Rank(s) == 8 {
      StepAtEnd(s, buf, packs.For(s));
    } else {
      StepNeverFails(s, buf, packs.For(s));
      if r.reported != DataNotEnough {
        StepExtends(s, buf, ext, packs.For(s), ref.For(s));
        if s != ReleaseStream {
          CallKeepsDestination(r.state, r.rest, packs, ext, ref);
        }
      }
    }
  }

  // ---------------------------------------------------------------- whole runs

  /** Bytes arrive, or OnConnectionShakeHand runs. */
  datatype Event = Arrive(bytes: seq<Byte>) | Call(packs: Packs)

  function NewBytes(e: Event): seq<Byte> {
    if e.Arrive? then e.bytes else []
  }

  function Received(events: seq<Event>): seq<Byte> {
    if events == [] then []
    else NewBytes(events[0]) + Received(events[1..])
  }

  /** State, unread bytes, all replies handed to Send, and how often the authentication was asked for. */
  datatype Progress = Progress(state: Shake, buf: seq<Byte>, replies: seq<Reply>, asked: nat)

  function After(p: Progress, e: Event): Progress
    requires p.state != DataNotEnough
  {
    match e
    case Arrive(bytes) => p.(buf := p.buf + bytes)
    case Call(packs) =>
      var r := Loop(p.state, p.buf, packs);
      Progress(r.state, r.rest, p.replies + r.replies, p.asked + if r.result == AuthenticateNow then 1 else 0)
  }

  /** Kept by every run: the replies handed to Send are exactly the script of the state reached, and the
      authentication was asked for once if releaseStream is passed and never before. */
  predicate OnScript(p: Progress) {
    && Going(p.state)
    && p.replies == Script(p.state)
    && p.asked == if Rank(p.state) > Rank(ReleaseStream) then 1 else 0
  }

  lemma AfterOnScript(p: Progress, e: Event)
    requires OnScript(p)
    ensures OnScript(After(p, e)) && Rank(p.state) <= Rank(After(p, e).state)
  {
    if e.Call? {
      LoopFollowsScript(p.state, p.buf, e.packs);
    }
  }

  function Run(p: Progress, events: seq<Event>): (r: Progress)
    requires OnScript(p)
    ensures OnScript(r)
    decreases |events|
  {
    if events == [] then p
    else
      AfterOnScript(p, events[0]);
      Run(After(p, events[0]), events[1..])
  }

  predicate CleanRun(p: Progress, events: seq<Event>, ref: Packs)
    requires OnScript(p)
    decreases |events|
  {
    events == [] ||
      (AfterOnScript(p, events[0]);
       (events[0].Call? ==> CleanCall(p.state, p.buf, events[0].packs, ref))
       && CleanRun(After(p, events[0]), events[1..], ref))
  }

  lemma EventKeepsDestination(p: Progress, e: Event, more: seq<Byte>, ref: Packs)
    requires OnScript(p) && (e.Call? ==> CleanCall(p.state, p.buf, e.packs, ref))
    ensures var q := After(p, e);
      Going(q.state) && Whole(q.state, q.buf + more, ref) == Whole(p.state, p.buf + (NewBytes(e) + more), ref)
  {
    match e
    case Arrive(bytes) =>
      Regroup3(p.buf, bytes, more);
    case Call(packs) =>
      CallKeepsDestination(p.state, p.buf, packs, more, ref);
      assert [] + more == more;
  }

  /** However the stream is cut, a clean run is on its way to where the whole stream leads. */
  lemma {:induction false} RunKeepsDestination(p: Progress, events: seq<Event>, later: seq<Byte>, ref: Packs)
    requires OnScript(p) && CleanRun(p, events, ref)
    ensures var q := Run(p, events);
      Whole(q.state, q.buf + later, ref) == Whole(p.state, p.buf + (Received(events) + later), ref)
    decreases |events|
  {
    hide Whole, CleanCall, After, OnScript;
    if events == [] {
      assert [] + later == later;
    } else {
      AfterOnScript(p, events[0]);
      var more := Received(events[1..]);
      EventKeepsDestination(p, events[0], more + later, ref);
      RunKeepsDestination(After(p, events[0]), events[1..], later, ref);
      Regroup3(NewBytes(events[0]), more, later);
    }
  }

  const START := Progress(C01, [], [], 0)

  /** Nothing more can be done with the bytes that are there. */
  predicate Drained(p: Progress, ref: Packs) {
    p.state == Success || Step(p.state, p.buf, ref.For(p.state)).reported == DataNotEnough
  }

  lemma DrainedStands(p: Progress, ref: Packs)
    requires OnScript(p) && Drained(p, ref)
    ensures Whole(p.state, p.buf + [], ref) == Position(p.state, p.buf)
  {
    assert p.buf + [] == p.buf;
  }

  /** The outcome of a handshake depends on its bytes, not on their cuts, provided that no call meets a
      part of the C3 packet and that headers without a size find the same sizes in both runs. */
  lemma CutsDoNotMatter(events: seq<Event>, events': seq<Event>, ref: Packs)
    requires CleanRun(START, events, ref) && CleanRun(START, events', ref)
    requires Received(events) == Received(events')
    requires Drained(Run(START, events), ref) && Drained(Run(START, events'), ref)
    ensures Run(START, events) == Run(START, events')
  {
    RunKeepsDestination(START, events, [], ref);
    RunKeepsDestination(START, events', [], ref);
    DrainedStands(Run(START, events), ref);
    DrainedStands(Run(START, events'), ref);
  }

  // ---------------------------------------------------------------- the receive window

  const WINDOW := 4096

  /** On a full window a step lacks data if and only if the message it waits for is longer than the
      window: only then can the handshake never go on. */
  lemma FullWindowStuckIff(s: Shake, buf: seq<Byte>, pack: PackHeader)
    requires Rank(s) < 8 && |buf| == 4096 && !IsC3(s, buf)
    ensures Step(s, buf, pack).reported == DataNotEnough <==>
      2 <= Rank(s) && ParseHeader(pack, buf).length + ParseHeader(pack, buf).header.Size() > 4096
  {
    ParseMessageNeverFails(pack, buf);
  }

  /** A full window does not start with a message that is longer than the window. Nothing is said of a
      window that is not full, of a part of a header, or of the C3 packet. */
  predicate FitsWindow(s: Shake, buf: seq<Byte>, pack: PackHeader) {
    |buf| == 4096 && 2 <= Rank(s) < 8 && !IsC3(s, buf) ==>
      ParseHeader(pack, buf).length + ParseHeader(pack, buf).header.Size() <= 4096
  }

  lemma {:induction false} LoopConsumes(s: Shake, buf: seq<Byte>, packs: Packs)
    requires Going(s)
    ensures |Loop(s, buf, packs).rest| <= |buf|
    ensures Rank(s) < 8 && Step(s, buf, packs.For(s)).reported != DataNotEnough ==> |Loop(s, buf, packs).rest| < |buf|
    decreases 10 - Rank(s)
  {
    hide Step;
    var r := Step(s, buf, packs.For(s));
    if Rank(s) == 8 {
      StepAtEnd(s, buf, packs.For(s));
    } else {
      StepNeverFails(s, buf, packs.For(s));
      if r.reported != DataNotEnough && s != ReleaseStream {
        LoopConsumes(r.state, r.rest, packs);
      }
    }
  }

  lemma C3IsTaken(s: Shake, buf: seq<Byte>, pack: PackHeader)
    requires IsC3(s, buf)
    ensures Step(s, buf, pack) == StepResult(s, Publish, buf[Min(CREATE_STREAM_C3_LENGTH, |buf|)..])
  {
  }

  /** A call during the handshake leaves room for the next read if and only if the window is not filled
      by a part of a longer message. */
  lemma CallLeavesRoom(s: Shake, buf: seq<Byte>, packs: Packs)
    requires Rank(s) < 8 && |buf| <= WINDOW
    ensures |Loop(s, buf, packs).rest| < WINDOW <==> FitsWindow(s, buf, packs.For(s))
  {
    hide Step, Loop;
    LoopConsumes(s, buf, packs);
    StepNeverFails(s, buf, packs.For(s));
    if |buf| == WINDOW {
      if IsC3(s, buf) {
        C3IsTaken(s, buf, packs.For(s));
      } else {
        FullWindowStuckIff(s, buf, packs.For(s));
        if Step(s, buf, packs.For(s)).reported == DataNotEnough {
          LoopEnds(s, buf, packs);
        }
      }
    }
  }
}
