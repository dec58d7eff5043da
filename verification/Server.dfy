/**
 One live stream as a whole: the publisher's bytes arrive in any pieces, ParseData runs at any
 moments, viewers join, lose their connections and leave in between. The main result follows every
 viewer's bytes back to the publisher's stream.
 */
module Server {
  import opened Bytes
  import opened FlvCodec
  import opened FlvManagers
  import opened Dechunker
  import opened Timeline
  import opened HttpChunks
  import opened Players
  import opened FanOut
  import opened Publisher
  import opened RtmpCodec
  import opened PublisherRuns

  /** The publisher's parser, its unread bytes, and the room of viewers. */
  datatype Live = Live(state: State, buf: seq<Byte>, room: Room)

  datatype LiveEvent =
    | Bytes(bytes: seq<Byte>)
    | ParseData(locals: Locals)
    | Join(name: string, open: bool)
    | Close(name: string)
    | Leave(name: string)

  /** What a call of ParseData does to parser and room. */
  function Parsed(l: Live, locals: Locals): Live
    requires l.state.Valid()
  {
    var r := Publisher.Call(l.state, l.buf, locals);
    Live(r.state, r.rest, PublishAll(l.room.(headers := r.state.headers), r.tags))
  }

  /** A join links the header tags, which parser and room share. */
  function Joined(l: Live, name: string, open: bool): Live
    requires l.room.last.Some? && l.room.published != []
  {
    var room := FanOut.Join(l.room, name, open);
    l.(state := l.state.(headers := room.headers), room := room)
  }

  predicate Allowed(l: Live, e: LiveEvent) {
    && (e.ParseData? ==> l.state.Valid() && InBounds(l.state, l.buf, e.locals))
    && (e.Join? ==> l.room.last.Some? && l.room.published != [])
  }

  function After(l: Live, e: LiveEvent): Live
    requires Allowed(l, e)
  {
    match e
    case Bytes(bytes) => l.(buf := l.buf + bytes)
    case ParseData(locals) => Parsed(l, locals)
    case Join(name, open) => Joined(l, name, open)
    case Close(name) => l.(room := FanOut.Close(l.room, name))
    case Leave(name) => l.(room := FanOut.Leave(l.room, name))
  }

  predicate AllowedRun(l: Live, events: seq<LiveEvent>)
    decreases |events|
  {
    events == [] || (Allowed(l, events[0]) && AllowedRun(After(l, events[0]), events[1..]))
  }

  function LiveRun(l: Live, events: seq<LiveEvent>): Live
    requires AllowedRun(l, events)
    decreases |events|
  {
    if events == [] then l else LiveRun(After(l, events[0]), events[1..])
  }

  /** Nobody joins before the first tag; that is all that is asked of the events. */
  predicate JoinsInTime(l: Live, events: seq<LiveEvent>)
    decreases |events|
  {
    events == [] ||
      (&& (events[0].Join? ==> l.room.last.Some? && l.room.published != [])
       && (Allowed(l, events[0]) ==> JoinsInTime(After(l, events[0]), events[1..])))
  }

  // ---------------------------------------------------------------- the publisher's part of a run

  /** The publisher's events; viewers come and go beside them. */
  function Own(e: LiveEvent): seq<PublisherRuns.Event> {
    match e
    case Bytes(bytes) => [Arrive(bytes)]
    case ParseData(locals) => [Parse(locals)]
    case _ => []
  }

  function Publishing(events: seq<LiveEvent>): seq<PublisherRuns.Event> {
    if events == [] then [] else Own(events[0]) + Publishing(events[1..])
  }

  /** Up to the linking of the header tags, the live stream is where its publisher's run is. */
  predicate Matches(l: Live, p: Progress) {
    && p.state.Valid() && l.buf == p.buf && l.state == p.state.(headers := l.room.headers)
    && l.room.published == p.tags && Served(l.room)
    && (l.room.headers == p.state.headers || l.room.headers == p.state.headers.Linked())
    && (p.state.leading ==> l.room.headers == p.state.headers && p.tags == [])
  }

  lemma LinkedIsLinked(h: Headers)
    ensures h.Linked().Linked() == h.Linked()
  {
    LinkedFields(h);
  }

  /** Behind the leading messages the header tags pass through a call untouched. */
  lemma HeadersPassThrough(s: State, headers: Headers, buf: seq<Byte>, locals: Locals)
    requires s.Valid() && !s.leading
    ensures var r := Publisher.Call(s, buf, locals);
      && r.state.headers == s.headers && !r.state.leading && r.state.Valid()
      && Publisher.Call(s.(headers := headers), buf, locals) == r.(state := r.state.(headers := headers))
  {
    LoopIsDechunker(s, buf, locals);
    LoopIsDechunker(s.(headers := headers), buf, locals);
  }

  lemma {:induction false} PublishAllServes(r: Room, tags: seq<Tag>)
    requires Served(r)
    ensures Served(PublishAll(r, tags))
    decreases |tags|
  {
    if tags != [] {
      PublishServes(r, tags[0]);
      PublishAllServes(Publish(r, tags[0]), tags[1..]);
    }
  }

  /** The leading call hands over tags only after it has left the leading state. */
  lemma LeadingHandsOver(s: State, buf: seq<Byte>, locals: Locals)
    requires s.Valid() && s.leading
    ensures var r := Publisher.Call(s, buf, locals); r.state.leading ==> r.tags == []
  {
    if buf != [] {
      LeadingRoundKeeps(s, buf, locals);
      var round := LeadingRound(s, buf, locals);
      if round.parsed > 0 {
        LoopIsDechunker(round.state, round.rest, locals);
      }
    }
  }

  lemma NothingBeforeLead(r: Room)
    requires Served(r) && r.published == []
    ensures r.last.None?
  {
  }

  lemma ParsedMatches(l: Live, p: Progress, locals: Locals)
    requires Matches(l, p) && InBounds(p.state, p.buf, locals)
    ensures InBounds(l.state, l.buf, locals) && Matches(Parsed(l, locals), PublisherRuns.Step(p, Parse(locals)))
  {
    hide Served, Publisher.Call;
    var r := Publisher.Call(p.state, p.buf, locals);
    CallKeepsValid(p.state, p.buf, locals);
    if p.state.leading {
      assert l.state == p.state;
      LeadingHandsOver(p.state, p.buf, locals);
      NothingBeforeLead(l.room);
      StepServes(l.room, SetHeaders(r.state.headers));
      PublishAllShows(l.room.(headers := r.state.headers), r.tags);
      PublishAllServes(l.room.(headers := r.state.headers), r.tags);
    } else {
      HeadersPassThrough(p.state, l.room.headers, p.buf, locals);
      PublishAllShows(l.room, r.tags);
      PublishAllServes(l.room, r.tags);
    }
  }

  lemma JoinedMatches(l: Live, p: Progress, name: string, open: bool)
    requires Matches(l, p) && l.room.last.Some? && l.room.published != []
    ensures Matches(Joined(l, name, open), p)
  {
    hide Served;
    JoinServes(l.room, name, open);
    LinkedIsLinked(p.state.headers);
  }

  lemma AfterMatches(l: Live, p: Progress, e: LiveEvent)
    requires Matches(l, p) && (e.Join? ==> l.room.last.Some? && l.room.published != [])
    requires SaneRun(p, Own(e))
    ensures Allowed(l, e) && Matches(After(l, e), PublisherRuns.Run(p, Own(e)))
  {
    hide Served, Publisher.Call;
    match e
    case Bytes(bytes) =>
    case ParseData(locals) => ParsedMatches(l, p, locals);
    case Join(name, open) => JoinedMatches(l, p, name, open);
    case Close(name) => CloseServes(l.room, name);
    case Leave(name) => LeaveServes(l.room, name);
  }

  lemma PublishingFirst(p: Progress, events: seq<LiveEvent>)
    requires events != [] && SaneRun(p, Publishing(events))
    ensures SaneRun(p, Own(events[0]))
    ensures var q := PublisherRuns.Run(p, Own(events[0]));
      && SaneRun(q, Publishing(events[1..]))
      && PublisherRuns.Run(p, Publishing(events)) == PublisherRuns.Run(q, Publishing(events[1..]))
  {
    var first, more := Own(events[0]), Publishing(events[1..]);
    if |first| == 1 {
      assert (first + more)[0] == first[0] && (first + more)[1..] == more && first[1..] == [];
    } else {
      assert first + more == more;
    }
  }

  /** The viewers' comings and goings do not touch what the publisher's bytes amount to. */
  lemma {:induction false} RunMatches(l: Live, p: Progress, events: seq<LiveEvent>)
    requires Matches(l, p) && JoinsInTime(l, events) && SaneRun(p, Publishing(events))
    ensures AllowedRun(l, events) && Matches(LiveRun(l, events), PublisherRuns.Run(p, Publishing(events)))
    decreases |events|
  {
    hide Matches, Publisher.Call;
    if events != [] {
      PublishingFirst(p, events);
      AfterMatches(l, p, events[0]);
      RunMatches(After(l, events[0]), PublisherRuns.Run(p, Own(events[0])), events[1..]);
    }
  }

  // ---------------------------------------------------------------- who is there

  predicate Moves(e: LiveEvent, name: string) {
    (e.Join? || e.Leave?) && e.name == name
  }

  predicate NoneMoves(events: seq<LiveEvent>, name: string) {
    forall e :: e in events ==> !Moves(e, name)
  }

  lemma AfterKeepsMember(l: Live, e: LiveEvent, name: string)
    requires Allowed(l, e) && !Moves(e, name)
    ensures name in After(l, e).room.viewers <==> name in l.room.viewers
    ensures name in l.room.viewers ==> After(l, e).room.viewers[name].from == l.room.viewers[name].from
  {
    hide Publisher.Call, PublishAll, FanOut.Join, FanOut.Close, FanOut.Leave;
    match e
    case Bytes(_) =>
    case ParseData(locals) =>
      var r := Publisher.Call(l.state, l.buf, locals);
      PublishAllShows(l.room.(headers := r.state.headers), r.tags);
    case Join(n, open) => JoinChangesNoOther(l.room, n, open);
    case Close(n) => CloseChangesNoOther(l.room, n);
    case Leave(n) => LeaveChangesNoOther(l.room, n);
  }

  lemma {:induction false} RunKeepsMember(l: Live, events: seq<LiveEvent>, name: string)
    requires AllowedRun(l, events) && NoneMoves(events, name)
    ensures name in LiveRun(l, events).room.viewers <==> name in l.room.viewers
    ensures name in l.room.viewers ==> LiveRun(l, events).room.viewers[name].from == l.room.viewers[name].from
    decreases |events|
  {
    hide After, Allowed;
    if events != [] {
      assert events[0] in events;
      AfterKeepsMember(l, events[0], name);
      RunKeepsMember(After(l, events[0]), events[1..], name);
    }
  }

  /** Who has joined and not left since is among the viewers that EveryViewerPlays speaks of, and sees all tags
      from the last one before its join on; who has left and not joined since is not. */
  lemma MembersAreThere(l: Live, e: LiveEvent, later: seq<LiveEvent>, name: string)
    requires Allowed(l, e) && AllowedRun(After(l, e), later) && Moves(e, name) && NoneMoves(later, name)
    ensures var viewers := LiveRun(After(l, e), later).room.viewers;
      && (name in viewers <==> e.Join?)
      && (e.Join? ==> l.room.published != [] && viewers[name].from == |l.room.published| - 1)
  {
    hide LiveRun;
    RunKeepsMember(After(l, e), later, name);
    if e.Join? {
      JoinAddsOne(l.room, name, e.open);
    } else {
      LeaveChangesNoOther(l.room, name);
    }
  }

  // ---------------------------------------------------------------- from the publisher's bytes to the viewers' screens

  /** The end of the handshake: nothing parsed, nobody watching. */
  function Start(response: seq<Byte>, s: State): Live {
    Live(s, [], Empty(response, s.headers))
  }

  /** RtmpManager as constructed. */
  predicate Fresh(s: State) {
    s.track.previous == 0 && s.parsed == 0 && s.headers.script.PreviousTagSize() == 0
  }

  /** The headers that three leading messages leave: they fit the temporary buffer, and are sized. */
  lemma LedHeaders(s: State, lead: Lead)
    requires s.track.Valid() && lead.Valid() && s.headers.script.PreviousTagSize() == 0
    ensures var h := Led(s, lead).headers;
      h.Sized() && h.BlockSize() <= HEADER_CAPACITY && h.script.PreviousTagSize() == 0
  {
    var m := lead.messages;
    HeadersFromLeading(s, m[0], m[1], m[2]);
  }

  /** What the viewer `v` was sent, as its HTTP client and player see it: the headers `h`, then the
      published tags from the last one before its join on. */
  predicate Sees(response: seq<Byte>, h: Headers, published: seq<Tag>, v: Viewer) {
    && v.from < |published|
    && var tags := StreamTags(h, published, v.from);
       var owed := Owed(HeaderStream(response, h), h.second.CurrentTagSize(), published, v.from);
    && v.sent <= owed && (v.open ==> v.sent == owed)
    && response <= owed
    && Unchunk(owed[|response|..]) == FlvFile(tags) && PlaysAs(FlvFile(tags), tags)
  }

  lemma ServedSees(r: Room, h: Headers, n: string)
    requires Served(r) && n in r.viewers && (r.headers == h || r.headers == h.Linked()) && Playable(h, r.published)
    ensures Sees(r.response, h, r.published, r.viewers[n])
  {
    var v := r.viewers[n];
    assert ViewerServed(v, Stream(r), Announced(r), r.published);
    LinkedTwice(h);
    OwedIsFlv(r.response, h, r.published, v.from);
  }

  lemma RunKeepsResponse(l: Live, events: seq<LiveEvent>)
    requires AllowedRun(l, events)
    ensures LiveRun(l, events).room.response == l.room.response
    decreases |events|
  {
    if events != [] {
      if events[0].ParseData? {
        var r := Publisher.Call(l.state, l.buf, events[0].locals);
        PublishAllShows(l.room.(headers := r.state.headers), r.tags);
      }
      RunKeepsResponse(After(l, events[0]), events[1..]);
    }
  }

  /** The viewers of a live stream whose publisher's run is where it should be. */
  lemma MatchedSees(l: Live, p: Progress, s: State, lead: Lead)
    requires Matches(l, p) && s.track.Valid() && lead.Valid() && s.headers.script.PreviousTagSize() == 0
    requires p.state.leading || p.state.headers == Led(s, lead).headers
    requires AllSized(p.tags) && Chained(0, p.tags)
    ensures l.room.published == p.tags
    ensures forall n :: n in l.room.viewers ==>
        Sees(l.room.response, Led(s, lead).headers, l.room.published, l.room.viewers[n])
  {
    hide Lead.Formed, Lead.Bytes, Led, Sees;
    var r, h := l.room, Led(s, lead).headers;
    LedHeaders(s, lead);
    forall n | n in r.viewers
      ensures Sees(r.response, h, r.published, r.viewers[n])
    {
      assert r.published != [];
      ServedSees(r, h, n);
    }
  }

  lemma StartMatches(response: seq<Byte>, s: State)
    requires Ready(s)
    ensures Matches(Start(response, s), Progress(s, [], []))
  {
    EmptyRoomServed(response, s.headers);
  }

  /** A publisher sends three leading messages and then any stream of contiguous messages, cut in any
      way; viewers come and go at any time after the first tag. Then no call ever reads past the
      received bytes; the tags published are a prefix of those that the stream amounts to, and all of them
      once the whole stream is received and a call would change nothing; and every viewer is sent, behind the
      response header and in chunked coding, an FLV file with the three leading messages as its header tags
      and a gap-free segment of the published tags. */
  lemma EveryViewerPlays(response: seq<Byte>, s: State, lead: Lead, stream: seq<Byte>, events: seq<LiveEvent>)
    requires Follows(s, lead, stream, Publishing(events)) && Fresh(s)
    requires Future(s.core, stream[|lead.Bytes()|..]).contiguous
    requires JoinsInTime(Start(response, s), events)
    ensures AllowedRun(Start(response, s), events)
    ensures var l := LiveRun(Start(response, s), events);
      && l.state.Valid()
      && l.room.published <= TagsOf(s, lead, stream)
      && (!l.state.leading && Received(Publishing(events)) == stream && Drained(l.state.core, l.buf) ==>
          l.room.published == TagsOf(s, lead, stream))
      && forall n :: n in l.room.viewers ==> Sees(response, Led(s, lead).headers, l.room.published, l.room.viewers[n])
  {
    hide Lead.Formed, Lead.Bytes, PublisherRuns.Run, SaneRun, Future, TagsOf, Led, Drained, LiveRun, AllowedRun,
        JoinsInTime, Sees;
    var p := Progress(s, [], []);
    PublishedIsPrefix(s, lead, stream, Publishing(events));
    PublishedIsSound(s, lead, stream, Publishing(events));
    StartMatches(response, s);
    RunMatches(Start(response, s), p, events);
    RunKeepsResponse(Start(response, s), events);
    MatchedSees(LiveRun(Start(response, s), events), PublisherRuns.Run(p, Publishing(events)), s, lead);
  }

  lemma PrefixBehind(part: seq<Byte>, all: seq<Byte>, n: nat)
    requires part <= all && n <= |part|
    ensures all[n..] == part[n..] + all[|part|..]
  {
  }

  /** Whatever part of these bytes has reached the wire: the client's FLV bytes are the first ones of
      that file, and the player's tags the first of its tags. */
  lemma WirePlays(response: seq<Byte>, h: Headers, published: seq<Tag>, v: Viewer, wire: seq<Byte>)
    requires Sees(response, h, published, v) && wire <= v.sent && |response| <= |wire|
    ensures v.from < |published|
    ensures var tags := StreamTags(h, published, v.from);
      var flv := Unchunk(wire[|response|..]);
      flv <= FlvFile(tags) && PlaysPart(flv, AllPlayed(tags))
  {
    hide Unchunk, FlvFile, PlayFile, PlaysPart, Owed, StreamTags;
    var tags := StreamTags(h, published, v.from);
    var owed := Owed(HeaderStream(response, h), h.second.CurrentTagSize(), published, v.from);
    var flv := Unchunk(wire[|response|..]);
    PrefixBehind(wire, owed, |response|);
    UnchunkExtends(wire[|response|..], owed[|wire|..]);
    PartPlays(flv, FlvFile(tags));
  }

  lemma LinkedTimes(h: Headers)
    ensures var k := h.Linked();
      k.script.Time() == h.script.Time() && k.first.Time() == h.first.Time() && k.second.Time() == h.second.Time()
  {
    WithPreviousFields(h.first, h.script.CurrentTagSize());
    WithPreviousFields(h.second, h.first.CurrentTagSize());
  }

  lemma InOrderPart(clock: nat, part: seq<Tag>, all: seq<Tag>)
    requires part <= all && InOrder(clock, all)
    ensures InOrder(clock, part)
  {
  }

  lemma SegmentInOrder(clock: nat, size: nat, published: seq<Tag>, from: nat)
    requires size < TWO_TO_32 && from < |published| && InOrder(clock, published)
    ensures InOrder(clock, Segment(size, published, from))
  {
    var segment := Segment(size, published, from);
    WithPreviousFields(published[from], size);
    forall k | 0 <= k < |segment|
      ensures segment[k].Time() == published[from + k].Time()
    {
    }
  }

  lemma ThreeInOrder(a: Tag, b: Tag, c: Tag, more: seq<Tag>)
    requires a.Time() <= b.Time() <= c.Time() && InOrder(c.Time(), more)
    ensures InOrder(a.Time(), [a, b, c] + more)
  {
  }

  /** While the sum of all times, the leading messages' included, stays below 2^24, no viewer ever sees
      the time go back, from the first header tag on. */
  lemma TimesInOrder(s: State, lead: Lead, messages: seq<Message>, published: seq<Tag>, from: nat)
    requires s.track.Valid() && lead.Formed()
    requires s.track.clock + Sum(lead.messages) + Sum(messages) < TWO_TO_24
    requires published <= Tags(Led(s, lead).track, messages) && from < |published|
    ensures var h := Led(s, lead).headers; InOrder(h.script.Time(), StreamTags(h, published, from))
  {
    hide Lead.Formed, Led, Sum, Segment, InOrder;
    var l := Led(s, lead);
    var h := l.headers.Linked();
    LedTimes(s, lead);
    LinkedTimes(l.headers);
    TimesDoNotGoBack(l.track, messages);
    InOrderPart(l.track.clock, published, Tags(l.track, messages));
    SegmentInOrder(l.track.clock, l.headers.second.CurrentTagSize(), published, from);
    ThreeInOrder(h.script, h.first, h.second, Segment(l.headers.second.CurrentTagSize(), published, from));
  }
}
