/**
 Whole runs of RtmpManager::ParseData from the end of the handshake on: the three leading messages
 and then the stream, cut into reads and calls in any way.
 */
module PublisherRuns {
  import opened Bytes
  import opened FlvCodec
  import opened RtmpCodec
  import opened Dechunker
  import opened Timeline
  import opened Chunker
  import opened Publisher
  import Runs = DechunkerRuns

  /** Bytes arrive in the receive buffer, or ParseData is called; `locals` is what its stack holds. */
  datatype Event = Arrive(bytes: seq<Byte>) | Parse(locals: Locals)

  function Received(events: seq<Event>): seq<Byte> {
    if events == [] then []
    else (if events[0].Arrive? then events[0].bytes else []) + Received(events[1..])
  }

  /** The parser, the unread bytes, and the tags handed to the callback so far. */
  datatype Progress = Progress(state: State, buf: seq<Byte>, tags: seq<Tag>)

  /** The call does not read past the received bytes. */
  predicate Sane(p: Progress, e: Event) {
    p.state.Valid() && (e.Parse? ==> InBounds(p.state, p.buf, e.locals))
  }

  function Step(p: Progress, e: Event): Progress
    requires Sane(p, e)
  {
    match e
    case Arrive(bytes) => p.(buf := p.buf + bytes)
    case Parse(locals) =>
      var r := Publisher.Call(p.state, p.buf, locals);
      Progress(r.state, r.rest, p.tags + r.tags)
  }

  predicate SaneRun(p: Progress, events: seq<Event>)
    decreases |events|
  {
    events == [] || (Sane(p, events[0]) && SaneRun(Step(p, events[0]), events[1..]))
  }

  function Run(p: Progress, events: seq<Event>): Progress
    requires SaneRun(p, events)
    decreases |events|
  {
    if events == [] then p else Run(Step(p, events[0]), events[1..])
  }

  // ---------------------------------------------------------------- behind the leading messages

  function Plain(events: seq<Event>): seq<Runs.Event> {
    if events == [] then []
    else [if events[0].Arrive? then Runs.Arrive(events[0].bytes) else Runs.Parse] + Plain(events[1..])
  }

  lemma {:induction false} PlainReceives(events: seq<Event>)
    ensures Runs.Received(Plain(events)) == Received(events)
  {
    if events != [] {
      PlainReceives(events[1..]);
      assert Plain(events)[1..] == Plain(events[1..]);
    }
  }

  /** What a run of the de-chunker from `s` on means for the publisher. */
  function Carried(s: State, tags: seq<Tag>, d: Outcome): Progress
    requires s.track.Valid()
  {
    Progress(s.(core := d.core, track := After(s.track, d.done), parsed := s.parsed + SizeSum(d.done)),
      d.rest, tags + Tags(s.track, d.done))
  }

  lemma {:induction false} SizeSumAppend(a: seq<Message>, b: seq<Message>)
    ensures SizeSum(a + b) == SizeSum(a) + SizeSum(b)
  {
    if a == [] {
      assert a + b == b;
    } else {
      assert (a + b)[0] == a[0] && (a + b)[1..] == a[1..] + b;
      SizeSumAppend(a[1..], b);
    }
  }

  lemma CarriedTwice(s: State, tags: seq<Tag>, d: Outcome, next: Outcome)
    requires s.track.Valid()
    ensures var p := Carried(s, tags, d);
      Carried(p.state, p.tags, next) == Carried(s, tags, next.(done := d.done + next.done))
  {
    hide Tags, After, SizeSum;
    TagsAppend(s.track, d.done, next.done);
    SizeSumAppend(d.done, next.done);
    var here := After(s.track, d.done);
    assert tags + Tags(s.track, d.done) + Tags(here, next.done)
        == tags + (Tags(s.track, d.done) + Tags(here, next.done));
  }

  lemma PlainCall(s: State, buf: seq<Byte>, locals: Locals, tags: seq<Tag>)
    requires s.Valid() && !s.leading
    ensures var r := Publisher.Call(s, buf, locals);
      && Dechunker.Call(s.core, buf).core.Waiting()
      && Progress(r.state, r.rest, tags + r.tags) == Carried(s, tags, Dechunker.Call(s.core, buf))
  {
    if buf != [] {
      LoopIsDechunker(s, buf, locals);
    }
  }

  /** The call behind a read leaves nothing that another call would take if and only if it does not pause. */
  lemma ReadDrainsIff(p: Progress, bytes: seq<Byte>, locals: Locals)
    requires p.state.Valid() && !p.state.leading && bytes != []
    ensures Sane(Step(p, Arrive(bytes)), Parse(locals))
    ensures var q := Step(Step(p, Arrive(bytes)), Parse(locals));
      && q.state.Valid() && !q.state.leading
      && (Drained(q.state.core, q.buf) <==> !Runs.Pauses(p.state.core, p.buf + bytes))
  {
    hide Publisher.Call, Drained, Runs.Pauses, ParseLoop;
    PlainCall(p.state, p.buf + bytes, locals, p.tags);
    CallKeepsValid(p.state, p.buf + bytes, locals);
    Runs.LoopDrainsIff(p.state.core, p.buf + bytes);
  }

  /** Behind the leading messages every run is the de-chunker's run, carried on by the track. */
  lemma {:induction false} PlainRun(s: State, buf: seq<Byte>, tags: seq<Tag>, events: seq<Event>)
    requires s.Valid() && !s.leading
    ensures SaneRun(Progress(s, buf, tags), events)
    ensures Run(Progress(s, buf, tags), events) == Carried(s, tags, Runs.Run(s.core, buf, Plain(events)))
    decreases |events|
  {
    if events == [] {
      assert tags + [] == tags;
    } else {
      var more := events[1..];
      assert Plain(events)[1..] == Plain(more);
      match events[0]
      case Arrive(bytes) => PlainRun(s, buf + bytes, tags, more);
      case Parse(locals) =>
        var d := Dechunker.Call(s.core, buf);
        var p := Carried(s, tags, d);
        PlainCall(s, buf, locals, tags);
        PlainRun(p.state, d.rest, p.tags, more);
        CarriedTwice(s, tags, d, Runs.Run(d.core, d.rest, Plain(more)));
    }
  }

  // ---------------------------------------------------------------- the leading messages first

  /** The three leading messages: a script, then audio and video, each with a full header, unsplit. */
  datatype Lead = Lead(messages: seq<Message>, choices: seq<Choice>) {
    predicate Formed() {
      && |messages| == |choices| == 3
      && Leads(messages[0], choices[0], SCRIPT) && Leads(messages[1], choices[1], MEDIA)
      && Leads(messages[2], choices[2], MEDIA)
    }

    function Bytes(): seq<Byte> {
      if !Formed() then []
      else
        PrintUnsplit(messages[0], choices[0]) +
        (PrintUnsplit(messages[1], choices[1]) + PrintUnsplit(messages[2], choices[2]))
    }

    predicate Valid() { Formed() && |Bytes()| <= RTMP_START_PARSE_LENGTH }
  }

  /** The state with which the stream behind the leading messages is met. */
  function Led(s: State, lead: Lead): (l: State)
    requires s.track.Valid() && lead.Formed()
    ensures l.track.Valid() && !l.leading && l.core == s.core
  {
    var l := WithHeaders(s, lead.messages[0], lead.messages[1], lead.messages[2]);
    l.(parsed := s.parsed + |lead.Bytes()|)
  }

  /** Before the first byte of the stream: nothing of a message is in. */
  predicate Ready(s: State) {
    s.track.Valid() && s.leading && s.core.body == [] && !s.core.inBody && s.core.readChunk == 0
  }

  lemma LeadBytesTaken(lead: Lead, tail: seq<Byte>, locals: Locals)
    requires lead.Valid() && |lead.Bytes() + tail| >= RTMP_START_PARSE_LENGTH
    ensures ParseLeading(lead.Bytes() + tail, locals)
        == Complete(lead.messages[0], lead.messages[1], lead.messages[2], tail, |lead.Bytes()|)
    ensures !LeadingReadsPast(lead.Bytes() + tail, locals)
  {
    LeadingTaken(lead.messages, lead.choices, tail, locals);
  }

  /** Byte `n` of the stream falls into the body of a leading message. */
  predicate CutInBody(lead: Lead, n: nat)
    requires lead.Formed()
  {
    var x := |PrintUnsplit(lead.messages[0], lead.choices[0])|;
    var y := |PrintUnsplit(lead.messages[1], lead.choices[1])|;
    var z := |PrintUnsplit(lead.messages[2], lead.choices[2])|;
    || |PrintHeader(lead.messages[0], lead.choices[0])| <= n < x
    || x + |PrintHeader(lead.messages[1], lead.choices[1])| <= n < x + y
    || x + y + |PrintHeader(lead.messages[2], lead.choices[2])| <= n < x + y + z
  }

  lemma Front(x: seq<Byte>, rest: seq<Byte>, n: nat)
    requires n <= |x| + |rest|
    ensures (x + rest)[..n] == if n < |x| then x[..n] else x + rest[..n - |x|]
  {
  }

  /** What an error in the middle of the leading messages leaves at byte `n`: the script message counts as
      soon as it is there, a first audio or video message without the second does not, and what was
      understood is gone. */
  function BrokenAt(lead: Lead, n: nat): Leading
    requires lead.Formed() && n <= |lead.Bytes()|
  {
    var x := |PrintUnsplit(lead.messages[0], lead.choices[0])|;
    var y := |PrintUnsplit(lead.messages[1], lead.choices[1])|;
    if n < x then Broken([], lead.Bytes()[..n])
    else if n < x + y then Broken([lead.messages[0]], lead.Bytes()[x..n])
    else Broken([lead.messages[0]], lead.Bytes()[x + y..n])
  }

  lemma CutLead(x: seq<Byte>, y: seq<Byte>, z: seq<Byte>, n: nat)
    requires n <= |x| + |y| + |z|
    ensures var all := x + (y + z);
      && (n >= |x| ==> all[|x|..n] == (y + z)[..n - |x|])
      && (|x| <= n <= |x| + |y| ==> all[|x|..n] == y[..n - |x|])
      && (n >= |x| + |y| ==> all[|x| + |y|..n] == z[..n - |x| - |y|])
  {
  }

  /** A call that finds the leading messages in part. */
  lemma PartOfLead(lead: Lead, n: nat, locals: Locals)
    requires lead.Formed() && RTMP_START_PARSE_LENGTH <= n < |lead.Bytes()|
    ensures var part := lead.Bytes()[..n];
      && (LeadingReadsPast(part, locals) <==> CutInBody(lead, n))
      && (!CutInBody(lead, n) ==> ParseLeading(part, locals) == BrokenAt(lead, n))
  {
    hide PackTypeOf, PrintHeader, ParseHeader, ParseOne, ReadsPast;
    var m, choices, memory := lead.messages, lead.choices, locals.beyond;
    var x, y, z := PrintUnsplit(m[0], choices[0]), PrintUnsplit(m[1], choices[1]), PrintUnsplit(m[2], choices[2]);
    hide PrintUnsplit, Leads;
    CutLead(x, y, z, n);
    Front(x, y + z, n);
    if n < |x| {
      CutMessage(locals.script, m[0], choices[0], SCRIPT, n, memory);
    } else {
      Front(y, z, n - |x|);
      ParseOneInvertsPrint(locals.script, m[0], choices[0], SCRIPT, (y + z)[..n - |x|], memory);
      if n < |x| + |y| {
        CutMessage(locals.first, m[1], choices[1], MEDIA, n - |x|, memory);
      } else {
        ParseOneInvertsPrint(locals.first, m[1], choices[1], MEDIA, z[..n - |x| - |y|], memory);
        CutMessage(locals.second, m[2], choices[2], MEDIA, n - |x| - |y|, memory);
      }
    }
  }

  /** What a call finds at byte `n`, for leading messages of any length: all of them, and it takes exactly
      them; or it reads past the received bytes, if and only if they end inside a body; or an error that loses
      what was understood. */
  lemma LeadAt(lead: Lead, tail: seq<Byte>, n: nat, locals: Locals)
    requires lead.Formed() && RTMP_START_PARSE_LENGTH <= n <= |lead.Bytes() + tail|
    ensures var buf, m := (lead.Bytes() + tail)[..n], lead.messages;
      && (LeadingReadsPast(buf, locals) <==> CutInBody(lead, n))
      && (n >= |lead.Bytes()| ==>
          ParseLeading(buf, locals) == Complete(m[0], m[1], m[2], tail[..n - |lead.Bytes()|], |lead.Bytes()|))
      && (n < |lead.Bytes()| && !CutInBody(lead, n) ==> ParseLeading(buf, locals) == BrokenAt(lead, n))
  {
    hide BrokenAt, Leads, PrintUnsplit, PrintHeader, ParseOne, ParseLeading, LeadingReadsPast;
    Front(lead.Bytes(), tail, n);
    if n < |lead.Bytes()| {
      PartOfLead(lead, n, locals);
    } else {
      LeadingTaken(lead.messages, lead.choices, tail[..n - |lead.Bytes()|], locals);
    }
  }

  predicate Taken(buf: seq<Byte>, locals: Locals) {
    ParseLeading(buf, locals).Complete? && !LeadingReadsPast(buf, locals)
  }

  lemma CutIsInside(lead: Lead, n: nat)
    requires lead.Formed()
    ensures CutInBody(lead, n) ==> n < |lead.Bytes()|
  {
  }

  /** The leading messages are taken, and nothing past the received bytes is read, wherever the first call
      that sees 1000 bytes finds the stream cut, if and only if they are within 1000 bytes. */
  lemma TakenAtEveryCutIff(lead: Lead, tail: seq<Byte>, locals: Locals)
    requires lead.Formed() && |lead.Bytes() + tail| >= RTMP_START_PARSE_LENGTH
    ensures (forall n :: RTMP_START_PARSE_LENGTH <= n <= |lead.Bytes() + tail| ==>
              Taken((lead.Bytes() + tail)[..n], locals))
      <==> |lead.Bytes()| <= RTMP_START_PARSE_LENGTH
  {
    hide Lead.Formed, Lead.Bytes, ParseLeading, LeadingReadsPast, CutInBody;
    forall n | RTMP_START_PARSE_LENGTH <= n <= |lead.Bytes() + tail|
      ensures Taken((lead.Bytes() + tail)[..n], locals) <==> n >= |lead.Bytes()|
    {
      LeadAt(lead, tail, n, locals);
      CutIsInside(lead, n);
    }
    assert Taken((lead.Bytes() + tail)[..RTMP_START_PARSE_LENGTH], locals)
      <==> RTMP_START_PARSE_LENGTH >= |lead.Bytes()|;
  }

  /** No cut makes a call read past the received bytes if and only if none from byte 1000 on falls into a body. */
  lemma InBoundsAtEveryCutIff(lead: Lead, tail: seq<Byte>, locals: Locals)
    requires lead.Formed() && |lead.Bytes() + tail| >= RTMP_START_PARSE_LENGTH
    ensures (forall n :: RTMP_START_PARSE_LENGTH <= n <= |lead.Bytes() + tail| ==>
              !LeadingReadsPast((lead.Bytes() + tail)[..n], locals))
      <==> (forall n :: RTMP_START_PARSE_LENGTH <= n < |lead.Bytes()| ==> !CutInBody(lead, n))
  {
    hide Lead.Bytes, Leads, ParseLeading, PrintUnsplit, PrintHeader, LeadingReadsPast, CutInBody;
    forall n | RTMP_START_PARSE_LENGTH <= n <= |lead.Bytes() + tail|
      ensures LeadingReadsPast((lead.Bytes() + tail)[..n], locals) <==> CutInBody(lead, n)
      ensures CutInBody(lead, n) ==> n < |lead.Bytes()|
    {
      LeadAt(lead, tail, n, locals);
      CutIsInside(lead, n);
    }
  }

  /** It does read past them: 1000 bytes that begin with a script message of 2000, which the source fills
      up with 1012 bytes of whatever memory holds behind them. */
  lemma ReadsPastTheEnd(s: State, locals: Locals)
    requires s.leading
    ensures var header: seq<Byte> := [0x04, 0, 0, 0, 0, 0x07, 0xd0, 18, 0, 0, 0, 0];
      var body: seq<Byte> := seq(988, _ => 0);
      && |header + body| == RTMP_START_PARSE_LENGTH && !InBounds(s, header + body, locals)
      && ParseLeading(header + body, locals)
        == Broken([Message(PackHeader([0, 0, 0], [0, 0x07, 0xd0], RTMP_SCRIPT), body + locals.beyond[..1012])], [])
  {
    var header: seq<Byte> := [0x04, 0, 0, 0, 0, 0x07, 0xd0, 18, 0, 0, 0, 0];
    var body: seq<Byte> := seq(988, _ => 0);
    var buf := header + body;
    var p := ParseHeader(locals.script, buf);
    assert buf[1..4] == [0, 0, 0] && buf[4..7] == [0, 0x07, 0xd0] && buf[12..] == body;
    assert p == HeaderParse(12, PackHeader([0, 0, 0], [0, 0x07, 0xd0], RTMP_SCRIPT)) && p.header.Size() == 2000;
    assert body[Min(2000, |body|)..] == [];
    assert ParseOne(locals.script, buf, SCRIPT, locals.beyond)
      == Got(Message(p.header, body + locals.beyond[..1012]), [], 2012);
    assert ParseOne(locals.first, [], MEDIA, locals.beyond) == Wrong([]);
  }

  lemma LoopAtHeader(c: Core, buf: seq<Byte>)
    requires c.readChunk == 0 && !c.inBody
    ensures ParseLoop(c, buf) == Dechunker.Call(c, buf)
  {
  }

  lemma TooShort(s: State, buf: seq<Byte>, locals: Locals)
    requires s.Valid() && s.leading && |buf| < RTMP_START_PARSE_LENGTH
    ensures InBounds(s, buf, locals) && Publisher.Call(s, buf, locals) == Result(true, 0, s, buf, [])
  {
  }

  /** The call that finds the leading messages. */
  lemma LeadingCall(s: State, lead: Lead, tail: seq<Byte>, locals: Locals)
    requires Ready(s) && lead.Valid() && |lead.Bytes() + tail| >= RTMP_START_PARSE_LENGTH
    ensures s.Valid() && InBounds(s, lead.Bytes() + tail, locals)
    ensures Dechunker.Call(s.core, tail).core.Waiting()
    ensures var r := Publisher.Call(s, lead.Bytes() + tail, locals);
      Progress(r.state, r.rest, r.tags) == Carried(Led(s, lead), [], Dechunker.Call(s.core, tail))
  {
    hide ParseLeading, LeadingReadsPast, ParseOne, Leads, PrintUnsplit, ParseLoop;
    LeadBytesTaken(lead, tail, locals);
    var l := WithHeaders(s, lead.messages[0], lead.messages[1], lead.messages[2]);
    LoopIsDechunker(l, tail, locals);
    var d := Dechunker.Call(s.core, tail);
    LoopAtHeader(s.core, tail);
    assert Loop(s, lead.Bytes() + tail, locals) == Dechunked(l, d).Behind(|lead.Bytes()|, []);
    assert [] + Tags(l.track, d.done) == Tags(l.track, d.done);
  }

  /** The same for the read that first brings 1000 bytes: the call that takes the leading messages goes on into
      the stream, and leaves nothing that another call would take if and only if it does not pause there. */
  lemma LeadingDrainsIff(p: Progress, lead: Lead, bytes: seq<Byte>, tail: seq<Byte>, locals: Locals)
    requires Ready(p.state) && lead.Valid() && p.buf + bytes == lead.Bytes() + tail
    requires |lead.Bytes() + tail| >= RTMP_START_PARSE_LENGTH
    ensures Sane(p, Arrive(bytes)) && Sane(Step(p, Arrive(bytes)), Parse(locals))
    ensures var q := Step(Step(p, Arrive(bytes)), Parse(locals));
      && q.state.core.readChunk < RTMP_CHUNK_SIZE && !q.state.leading
      && (Drained(q.state.core, q.buf) <==> !Runs.Pauses(p.state.core, tail))
  {
    hide Lead.Formed, Lead.Bytes, Led, Publisher.Call, Drained, Runs.Pauses, ParseLoop, InBounds;
    LeadingCall(p.state, lead, tail, locals);
    LoopAtHeader(p.state.core, tail);
    Runs.LoopDrainsIff(p.state.core, tail);
  }

  /** The events of the de-chunker's run: it starts when a call first finds 1000 bytes. */
  function BehindLead(lead: nat, buf: seq<Byte>, events: seq<Event>): seq<Runs.Event>
    requires lead <= RTMP_START_PARSE_LENGTH
    decreases |events|
  {
    if events == [] then []
    else if events[0].Arrive? then BehindLead(lead, buf + events[0].bytes, events[1..])
    else if |buf| < RTMP_START_PARSE_LENGTH then BehindLead(lead, buf, events[1..])
    else [Runs.Arrive(buf[lead..]), Runs.Parse] + Plain(events[1..])
  }

  /** Whether a call ever finds 1000 bytes. */
  predicate Starts(buf: seq<Byte>, events: seq<Event>)
    decreases |events|
  {
    events != [] &&
      if events[0].Arrive? then Starts(buf + events[0].bytes, events[1..])
      else |buf| >= RTMP_START_PARSE_LENGTH || Starts(buf, events[1..])
  }

  lemma PlainStart(c: Core, tail: seq<Byte>, more: seq<Runs.Event>)
    requires c.readChunk < RTMP_CHUNK_SIZE
    ensures var d, plain := Dechunker.Call(c, tail), [Runs.Arrive(tail), Runs.Parse] + more;
      var next := Runs.Run(d.core, d.rest, more);
      && Runs.Run(c, [], plain) == next.(done := d.done + next.done)
      && Runs.Received(plain) == tail + Runs.Received(more)
  {
    hide Dechunker.Call;
    var plain := [Runs.Arrive(tail), Runs.Parse] + more;
    assert plain[1..] == [Runs.Parse] + more && plain[1..][1..] == more;
    NothingInFront(tail);
    NothingInFront(Runs.Received(more));
  }

  /** The run that starts with the call in hand, as a run of the de-chunker on what is behind the leading messages. */
  lemma StartingRun(s: State, lead: Lead, tail: seq<Byte>, locals: Locals, more: seq<Event>)
    requires Ready(s) && lead.Valid() && |lead.Bytes() + tail| >= RTMP_START_PARSE_LENGTH
    ensures var events, plain := [Parse(locals)] + more, [Runs.Arrive(tail), Runs.Parse] + Plain(more);
      && SaneRun(Progress(s, lead.Bytes() + tail, []), events)
      && Run(Progress(s, lead.Bytes() + tail, []), events) == Carried(Led(s, lead), [], Runs.Run(s.core, [], plain))
      && Runs.Received(plain) == tail + Received(more)
  {
    hide Lead.Formed, Lead.Bytes, Led, ParseLoop, Dechunker.Call, Publisher.Call, InBounds, Runs.Run, Plain, Received;
    var events := [Parse(locals)] + more;
    var d := Dechunker.Call(s.core, tail);
    var p := Carried(Led(s, lead), [], d);
    LeadingCall(s, lead, tail, locals);
    assert events[0] == Parse(locals) && events[1..] == more;
    assert [] + p.tags == p.tags;
    PlainRun(p.state, d.rest, p.tags, more);
    CarriedTwice(Led(s, lead), [], d, Runs.Run(d.core, d.rest, Plain(more)));
    PlainStart(s.core, tail, Plain(more));
    PlainReceives(more);
  }

  /** Until a call finds 1000 bytes nothing happens; from then on the run is a run of the de-chunker on
      the bytes behind the leading messages, and no call ever reads past the received bytes. */
  lemma {:induction false} RunIsDechunkers(s: State, lead: Lead, stream: seq<Byte>, buf: seq<Byte>, events: seq<Event>)
    requires Ready(s) && lead.Valid() && lead.Bytes() <= stream && buf + Received(events) <= stream
    ensures SaneRun(Progress(s, buf, []), events)
    ensures var plain := BehindLead(|lead.Bytes()|, buf, events);
      if Starts(buf, events) then
        && Run(Progress(s, buf, []), events) == Carried(Led(s, lead), [], Runs.Run(s.core, [], plain))
        && lead.Bytes() + Runs.Received(plain) == buf + Received(events)
      else Run(Progress(s, buf, []), events) == Progress(s, buf + Received(events), [])
    decreases |events|
  {
    hide Lead.Formed, Lead.Bytes, Led, ParseLoop, Dechunker.Call, Runs.Run, Publisher.Call, InBounds, ParseLeading;
    if events == [] {
      assert buf + [] == buf;
    } else {
      var more := events[1..];
      match events[0]
      case Arrive(bytes) =>
        assert buf + (bytes + Received(more)) == buf + bytes + Received(more);
        RunIsDechunkers(s, lead, stream, buf + bytes, more);
      case Parse(locals) =>
        assert [] + Received(more) == Received(more);
        if |buf| < RTMP_START_PARSE_LENGTH {
          TooShort(s, buf, locals);
          assert Step(Progress(s, buf, []), events[0]) == Progress(s, buf, []);
          RunIsDechunkers(s, lead, stream, buf, more);
        } else {
          var tail := buf[|lead.Bytes()|..];
          assert buf == lead.Bytes() + tail;
          StartingRun(s, lead, tail, locals, more);
          assert events == [Parse(locals)] + more;
          assert lead.Bytes() + (tail + Received(more)) == buf + Received(more);
        }
    }
  }

  /** The tags that a stream amounts to: its messages as the reference decoder finds them, on the track
      that the leading messages left. */
  function TagsOf(s: State, lead: Lead, stream: seq<Byte>): seq<Tag>
    requires Ready(s) && lead.Formed() && lead.Bytes() <= stream
  {
    Tags(Led(s, lead).track, Future(s.core, stream[|lead.Bytes()|..]).messages)
  }

  /** The de-chunker's part of a run, empty as long as the leading messages are not taken. */
  function Behind(s: State, lead: Lead, events: seq<Event>): Outcome
    requires Ready(s) && lead.Valid()
  {
    Runs.Run(s.core, [], BehindLead(|lead.Bytes()|, [], events))
  }

  /** A run from the end of the handshake on. */
  predicate Follows(s: State, lead: Lead, stream: seq<Byte>, events: seq<Event>) {
    Ready(s) && lead.Valid() && lead.Bytes() <= stream && Received(events) <= stream
  }

  lemma FollowsIsSane(s: State, lead: Lead, stream: seq<Byte>, events: seq<Event>)
    requires Follows(s, lead, stream, events)
    ensures SaneRun(Progress(s, [], []), events)
    ensures var p := Run(Progress(s, [], []), events);
      if Starts([], events) then
        && p == Carried(Led(s, lead), [], Behind(s, lead, events))
        && lead.Bytes() + Runs.Received(BehindLead(|lead.Bytes()|, [], events)) == Received(events)
      else p == Progress(s, Received(events), [])
  {
    assert [] + Received(events) == Received(events);
    RunIsDechunkers(s, lead, stream, [], events);
  }

  /** What a run of the de-chunker on the first part of some bytes delivers is a prefix of what they all contain. */
  lemma DeliveredOfPart(c: Core, events: seq<Runs.Event>, all: seq<Byte>)
    requires c.Waiting() && Runs.Received(events) <= all
    ensures var r := Runs.Run(c, [], events);
      && r.done <= Future(c, all).messages
      && (Runs.Received(events) == all && Drained(r.core, r.rest) ==> r.done == Future(c, all).messages)
      && (Future(c, all).contiguous ==> Runs.Unwrapped(c) ==> forall m :: m in r.done ==> m.Sized())
  {
    var later := all[|Runs.Received(events)|..];
    assert [] + (Runs.Received(events) + later) == all;
    Runs.RunRefinesReference(c, [], events, later);
    Runs.DeliveredIsPrefix(c, events);
    if Future(c, all).contiguous && Runs.Unwrapped(c) {
      assert Runs.Received(events) + later == all && [] + Runs.Received(events) == Runs.Received(events);
      Runs.ContiguousSoFar(c, Runs.Received(events), later);
      Runs.RunKeepsUnwrapped(c, [], events);
    }
  }

  lemma TagsOfPart(track: Track, part: seq<Message>, all: seq<Message>)
    requires track.Valid() && part <= all
    ensures Tags(track, part) <= Tags(track, all)
  {
    TagsAppend(track, part, all[|part|..]);
    assert part + all[|part|..] == all;
  }

  /** However the stream is cut: the calls never read past the received bytes; before 1000 bytes are
      seen nothing is taken; from then on the header tags are those of the leading messages, the tags
      handed over are at every moment a prefix of the stream's tags, and all of them once the whole
      stream is in and a call changes nothing any more. */
  lemma PublishedIsPrefix(s: State, lead: Lead, stream: seq<Byte>, events: seq<Event>)
    requires Follows(s, lead, stream, events)
    ensures SaneRun(Progress(s, [], []), events)
    ensures var p := Run(Progress(s, [], []), events);
      && p.state.Valid()
      && p.tags <= TagsOf(s, lead, stream)
      && (p.state.leading ==> p == Progress(s, Received(events), []))
      && (!p.state.leading ==> lead.Bytes() <= Received(events) && p.state.headers == Led(s, lead).headers)
      && (!p.state.leading && Received(events) == stream && Drained(p.state.core, p.buf) ==>
          p.tags == TagsOf(s, lead, stream))
  {
    hide Lead.Formed, Lead.Bytes, Led, ParseLoop, Dechunker.Call, Runs.Run, BehindLead, Run, Starts;
    FollowsIsSane(s, lead, stream, events);
    if Starts([], events) {
      var plain := BehindLead(|lead.Bytes()|, [], events);
      var all := stream[|lead.Bytes()|..];
      assert Runs.Received(plain) <= all;
      var d := Behind(s, lead, events);
      DeliveredOfPart(s.core, plain, all);
      Runs.RunRefinesReference(s.core, [], plain, []);
      TagsOfPart(Led(s, lead).track, d.done, Future(s.core, all).messages);
      assert [] + Tags(Led(s, lead).track, d.done) == Tags(Led(s, lead).track, d.done);
    }
  }

  /** Behind the leading messages, and a call changes nothing any more. */
  predicate Finished(p: Progress) {
    p.state.Valid() && !p.state.leading && Drained(p.state.core, p.buf)
  }

  /** Two runs over the same stream, cut differently: once both are finished they have handed over the
      same tags, and hold the same header tags. */
  lemma CutsDoNotMatter(s: State, lead: Lead, stream: seq<Byte>, events: seq<Event>, events': seq<Event>)
    requires Follows(s, lead, stream, events) && Follows(s, lead, stream, events')
    requires Received(events) == Received(events') == stream
    ensures SaneRun(Progress(s, [], []), events) && SaneRun(Progress(s, [], []), events')
    ensures var p, p' := Run(Progress(s, [], []), events), Run(Progress(s, [], []), events');
      Finished(p) && Finished(p') ==> p.tags == p'.tags && p.state.headers == p'.state.headers
  {
    PublishedIsPrefix(s, lead, stream, events);
    PublishedIsPrefix(s, lead, stream, events');
  }

  // ---------------------------------------------------------------- printed streams

  /** Leading messages and a printed stream behind them: the tags are those of the printed messages, one for
      each audio or video message that is not empty, in order, with its type, size and body. */
  lemma PrintedStream(s: State, lead: Lead, messages: seq<Message>, choices: seq<Choice>)
    requires Ready(s) && lead.Valid() && AllAllowed(s.core.header, messages, choices)
    ensures var stream := lead.Bytes() + Print(s.core.header, messages, choices);
      && Future(s.core, stream[|lead.Bytes()|..]).contiguous
      && TagsOf(s, lead, stream) == Tags(Led(s, lead).track, Full(messages))
      && |TagsOf(s, lead, stream)| == |Media(Full(messages))|
      && forall i :: 0 <= i < |Media(Full(messages))| ==> Carries(TagsOf(s, lead, stream)[i], Media(Full(messages))[i])
  {
    hide Lead.Formed, Lead.Bytes, Led;
    var printed := Print(s.core.header, messages, choices);
    assert (lead.Bytes() + printed)[|lead.Bytes()|..] == printed == printed + [];
    ReferenceInvertsPrint(s.core.header, messages, choices, []);
    assert Full(messages) + [] == Full(messages);
    TagsCarryMedia(Led(s, lead).track, Full(messages));
  }

  /** The header tags carry the leading messages. */
  lemma LedCarries(s: State, lead: Lead)
    requires s.track.Valid() && lead.Formed()
    ensures var h := Led(s, lead).headers;
      Carries(h.script, lead.messages[0]) && Carries(h.first, lead.messages[1]) && Carries(h.second, lead.messages[2])
  {
    hide Leads, PrintUnsplit;
    var m := lead.messages;
    var c1 := Tick(s.track.clock, m[0]);
    var c2 := Tick(c1, m[1]);
    EncodedFields(s.headers.script, m[0], c1);
    EncodedFields(s.headers.first, m[1], c2);
    EncodedFields(s.headers.second, m[2], Tick(c2, m[2]));
  }

  /** The clock counts their times too. */
  lemma LedClock(s: State, lead: Lead)
    requires s.track.Valid() && lead.Formed()
    ensures Led(s, lead).track.clock == (s.track.clock + Sum(lead.messages)) % TWO_TO_32
  {
    var m := lead.messages;
    assert m == [m[0], m[1], m[2]];
    HeadersFromLeading(s, m[0], m[1], m[2]);
    ClockIsSum(s.track, m);
  }

  lemma LowSum(clock: nat, more: nat)
    ensures (clock % TWO_TO_32 + more) % TWO_TO_24 == (clock + more) % TWO_TO_24
  {
    ModAdd(clock, more, TWO_TO_32);
    LowClock(clock % TWO_TO_32 + more);
    LowClock(clock + more);
  }

  /** In every run: the tag of a media message of the stream, once it is handed over, has as its time the
      sum of the times of the three leading messages and of all messages up to its own, modulo 2^24. */
  lemma TimeOfPublished(s: State, lead: Lead, stream: seq<Byte>, events: seq<Event>,
                        before: seq<Message>, m: Message, behind: seq<Message>)
    requires Follows(s, lead, stream, events) && m.IsMedia()
    requires Future(s.core, stream[|lead.Bytes()|..]).messages == before + [m] + behind
    ensures SaneRun(Progress(s, [], []), events)
    ensures var tags, k := Run(Progress(s, [], []), events).tags, |Tags(Led(s, lead).track, before)|;
      k < |tags| ==>
        && Carries(tags[k], m)
        && tags[k].Time() == (s.track.clock + Sum(lead.messages) + (Sum(before) + U24(m.header.timestamp))) % TWO_TO_24
  {
    hide Lead.Bytes, Future, Run, SaneRun, Tags;
    PublishedIsPrefix(s, lead, stream, events);
    TimeOfTag(Led(s, lead).track, before, m, behind);
    LedClock(s, lead);
    LowSum(s.track.clock + Sum(lead.messages), Sum(before) + U24(m.header.timestamp));
  }

  lemma SumOfThree(m: seq<Message>)
    requires |m| == 3
    ensures Sum(m) == U24(m[0].header.timestamp) + (U24(m[1].header.timestamp) + U24(m[2].header.timestamp))
  {
    var two, one := m[1..], m[2..];
    assert two[1..] == one && one[1..] == [];
    assert Sum(one) == U24(one[0].header.timestamp) + Sum([]);
    assert Sum(two) == U24(two[0].header.timestamp) + Sum(one);
  }

  lemma NoWrap(clock: nat, m: Message)
    requires clock + U24(m.header.timestamp) < TWO_TO_24
    ensures Tick(clock, m) == Tick(clock, m) % TWO_TO_24 == clock + U24(m.header.timestamp)
  {
  }

  /** The times of the header tags, while the sum of all times stays below 2^24. */
  lemma LedTimes(s: State, lead: Lead)
    requires s.track.Valid() && lead.Formed() && s.track.clock + Sum(lead.messages) < TWO_TO_24
    ensures var h := Led(s, lead).headers;
      && h.script.Time() <= h.first.Time() <= h.second.Time() == Led(s, lead).track.clock
      && Led(s, lead).track.clock == s.track.clock + Sum(lead.messages)
  {
    hide Leads, PrintUnsplit, Tick, Sum;
    var m := lead.messages;
    SumOfThree(m);
    var c1 := Tick(s.track.clock, m[0]);
    var c2 := Tick(c1, m[1]);
    var c3 := Tick(c2, m[2]);
    NoWrap(s.track.clock, m[0]);
    NoWrap(c1, m[1]);
    NoWrap(c2, m[2]);
    EncodedFields(s.headers.script, m[0], c1);
    EncodedFields(s.headers.first, m[1], c2);
    EncodedFields(s.headers.second, m[2], c3);
  }

  // ---------------------------------------------------------------- the tags are well formed

  /** On a stream whose messages are contiguous, every tag has the size it announces; the tags form a
      chain of PreviousTagSizes from 0 on; and `parsed_length_` counts the bytes of the leading messages
      and the announced sizes of all messages behind them, media or not. */
  lemma PublishedIsSound(s: State, lead: Lead, stream: seq<Byte>, events: seq<Event>)
    requires Follows(s, lead, stream, events) && s.track.previous == 0 && s.parsed == 0
    requires Future(s.core, stream[|lead.Bytes()|..]).contiguous
    ensures SaneRun(Progress(s, [], []), events)
    ensures var p := Run(Progress(s, [], []), events);
      && AllSized(p.tags) && Chained(0, p.tags)
      && p.state.parsed == if p.state.leading then 0 else |lead.Bytes()| + SizeSum(Behind(s, lead, events).done)
  {
    hide Lead.Formed, Lead.Bytes, ParseLoop, Dechunker.Call, Runs.Run, BehindLead, Run, Starts;
    FollowsIsSane(s, lead, stream, events);
    if Starts([], events) {
      var plain := BehindLead(|lead.Bytes()|, [], events);
      var all := stream[|lead.Bytes()|..];
      assert Runs.Received(plain) <= all;
      var d, track := Behind(s, lead, events), Led(s, lead).track;
      DeliveredOfPart(s.core, plain, all);
      TagsSized(track, d.done);
      TagsAreChained(track, d.done);
      assert [] + Tags(track, d.done) == Tags(track, d.done);
    }
  }
}
