/**
 The fan-out of RtmpServerConnection as a state machine: publishing a tag, a viewer joining, a
 viewer's connection closing or leaving the map, in any order. The results say what each viewer was
 sent, and what an HTTP client and an FLV player make of it.
 */
module FanOut {
  import opened Bytes
  import opened FlvCodec
  import opened FlvManagers
  import opened Format
  import opened HttpChunks
  import opened Players
  import opened Timeline

  /** The capacity of the temporary buffer that the header block is printed into. */
  const HEADER_CAPACITY := 4096

  /** A viewer: whether its connection still takes data, the bytes handed to it, and the index of the
      published tag that was the last one when it joined. */
  datatype Viewer = Viewer(open: bool, sent: seq<Byte>, from: nat) {
    function Give(bytes: seq<Byte>): Viewer {
      if open then this.(sent := sent + bytes) else this
    }
  }

  /** The global `response_header`, `flv_manager_`'s header tags, `header_buffer_`, `*last_flv_tag_ptr_`,
      `client_connection_map_`, and the tags published so far. */
  datatype Room = Room(response: seq<Byte>, headers: Headers, cache: seq<Byte>, last: Option<Tag>,
                       viewers: map<string, Viewer>, published: seq<Tag>)

  /** What EncodeHeadersToBuffer leaves in the temporary buffer: nothing when the block does not fit. */
  function HeaderPayload(h: Headers): seq<Byte> {
    if h.BlockSize() <= HEADER_CAPACITY then Block(h) else []
  }

  function HeaderStream(response: seq<Byte>, h: Headers): seq<Byte> {
    response + Frame(HeaderPayload(h))
  }

  function TagFrame(t: Tag): seq<Byte> {
    Frame(t.Serialized())
  }

  function GiveAll(viewers: map<string, Viewer>, bytes: seq<Byte>): map<string, Viewer> {
    map n | n in viewers :: viewers[n].Give(bytes)
  }

  /** OnNewFlvTag. */
  function Publish(r: Room, t: Tag): Room {
    r.(last := Some(t), published := r.published + [t], viewers := GiveAll(r.viewers, TagFrame(t)))
  }

  function PublishAll(r: Room, tags: seq<Tag>): Room
    decreases |tags|
  {
    if tags == [] then r else PublishAll(Publish(r, tags[0]), tags[1..])
  }

  lemma {:induction false} PublishAllAppend(r: Room, a: seq<Tag>, b: seq<Tag>)
    ensures PublishAll(r, a + b) == PublishAll(PublishAll(r, a), b)
    decreases |a|
  {
    if a == [] {
      assert a + b == b;
    } else {
      assert (a + b)[0] == a[0] && (a + b)[1..] == a[1..] + b;
      PublishAllAppend(Publish(r, a[0]), a[1..], b);
    }
  }

  /** GetHeaderDataBuffer: fills the cache once, linking the header tags on the way. */
  function WithCache(r: Room): Room {
    if r.cache != [] then r
    else r.(cache := HeaderStream(r.response, r.headers),
            headers := if r.headers.BlockSize() <= HEADER_CAPACITY then r.headers.Linked() else r.headers)
  }

  /** AddClientConnection: the header stream, then the last tag with its PreviousTagSize rewritten in place. */
  function Join(r: Room, name: string, open: bool): Room
    requires r.last.Some? && r.published != []
  {
    var r1 := WithCache(r);
    var t := r1.last.value.WithPrevious(r1.headers.second.CurrentTagSize());
    var v := Viewer(open, [], |r.published| - 1).Give(r1.cache).Give(TagFrame(t));
    r1.(last := Some(t), viewers := r1.viewers[name := v])
  }

  function Close(r: Room, name: string): Room {
    if name in r.viewers then r.(viewers := r.viewers[name := r.viewers[name].(open := false)]) else r
  }

  function Leave(r: Room, name: string): Room {
    r.(viewers := r.viewers - {name})
  }

  datatype Event =
    | SetHeaders(headers: Headers)
    | Publishes(tag: Tag)
    | Joins(name: string, open: bool)
    | Closes(name: string)
    | Leaves(name: string)

  /** Headers come before the first live tag; a viewer joins only after it. */
  predicate Enabled(r: Room, e: Event) {
    && (e.SetHeaders? ==> r.last.None?)
    && (e.Joins? ==> r.last.Some? && r.published != [])
  }

  function Step(r: Room, e: Event): Room
    requires Enabled(r, e)
  {
    match e
    case SetHeaders(h) => r.(headers := h)
    case Publishes(t) => Publish(r, t)
    case Joins(name, open) => Join(r, name, open)
    case Closes(name) => Close(r, name)
    case Leaves(name) => Leave(r, name)
  }

  predicate EnabledRun(r: Room, events: seq<Event>)
    decreases |events|
  {
    events == [] || (Enabled(r, events[0]) && EnabledRun(Step(r, events[0]), events[1..]))
  }

  function Run(r: Room, events: seq<Event>): Room
    requires EnabledRun(r, events)
    decreases |events|
  {
    if events == [] then r else Run(Step(r, events[0]), events[1..])
  }

  function Empty(response: seq<Byte>, h: Headers): Room {
    Room(response, h, [], None, map[], [])
  }

  // ---------------------------------------------------------------- what a viewer is owed

  /** From the last tag before its join on, all published tags without gap or repetition; the first one
      announces `size`, that of the last header tag. */
  function Segment(size: nat, published: seq<Tag>, from: nat): seq<Tag>
    requires size < TWO_TO_32 && from < |published|
  {
    [published[from].WithPrevious(size)] + published[from + 1..]
  }

  function Payloads(tags: seq<Tag>): (p: seq<seq<Byte>>)
    ensures |p| == |tags| && forall i :: 0 <= i < |tags| ==> p[i] == tags[i].Serialized()
  {
    seq(|tags|, i requires 0 <= i < |tags| => tags[i].Serialized())
  }

  /** The viewers after the tags were handed to each of them. */
  function Shown(viewers: map<string, Viewer>, tags: seq<Tag>): map<string, Viewer> {
    GiveAll(viewers, Frames(Payloads(tags)))
  }

  /** `r` is `r0` under the given headers after `tags` were published. */
  predicate Fed(r0: Room, r: Room, headers: Headers, tags: seq<Tag>) {
    r == PublishAll(r0.(headers := headers), tags)
  }

  /** `stream` is the header stream, `size` the size of the last header tag. */
  function Owed(stream: seq<Byte>, size: nat, published: seq<Tag>, from: nat): seq<Byte>
    requires size < TWO_TO_32 && from < |published|
  {
    stream + Frames(Payloads(Segment(size, published, from)))
  }

  /** A part of what is owed, and all of it while the connection is open. */
  predicate Gets(v: Viewer, owed: seq<Byte>) {
    v.sent <= owed && (v.open ==> v.sent == owed)
  }

  predicate ViewerServed(v: Viewer, stream: seq<Byte>, size: nat, published: seq<Tag>)
    requires size < TWO_TO_32
  {
    v.from < |published| && Gets(v, Owed(stream, size, published, v.from))
  }

  predicate AllServed(viewers: map<string, Viewer>, stream: seq<Byte>, size: nat, published: seq<Tag>)
    requires size < TWO_TO_32
  {
    forall n :: n in viewers ==> ViewerServed(viewers[n], stream, size, published)
  }

  function Stream(r: Room): seq<Byte> { HeaderStream(r.response, r.headers) }

  function Announced(r: Room): (n: nat)
    ensures n < TWO_TO_32
  {
    r.headers.second.CurrentTagSize()
  }

  predicate SameButPrevious(a: Tag, b: Tag) {
    a.header[4..] == b.header[4..] && a.body == b.body
  }

  /** The last tag is the last published one, up to the PreviousTagSize that joins rewrite; the cache
      is a fresh encoding; nothing is cached or sent before the first tag. */
  predicate Consistent(r: Room) {
    && (r.last.None? <==> r.published == [])
    && (r.last.Some? ==> SameButPrevious(r.last.value, r.published[|r.published| - 1]))
    && (r.published == [] ==> r.viewers == map[] && r.cache == [])
    && (r.cache != [] ==> r.cache == Stream(r))
  }

  /** Kept by every step. */
  predicate Served(r: Room) {
    Consistent(r) && AllServed(r.viewers, Stream(r), Announced(r), r.published)
  }

  lemma SameWithPrevious(a: Tag, b: Tag, n: nat)
    requires SameButPrevious(a, b) && n < TWO_TO_32
    ensures a.WithPrevious(n) == b.WithPrevious(n)
    ensures SameButPrevious(a.WithPrevious(n), b) && a.CurrentTagSize() == b.CurrentTagSize()
  {
    assert a.header[5..8] == a.header[4..][1..4] == b.header[5..8];
  }

  lemma LinkedTwice(h: Headers)
    ensures h.Linked().BlockSize() == h.BlockSize() && Block(h.Linked()) == Block(h)
    ensures h.Linked().second.CurrentTagSize() == h.second.CurrentTagSize()
  {
    LinkedFields(h);
    assert h.Linked().Linked() == h.Linked();
  }

  lemma FrameIsNotEmpty(payload: seq<Byte>)
    ensures Frame(payload) != []
  {
  }

  /** The cached header stream equals a fresh one, whether the header tags are linked yet or not. */
  lemma CachedEqualsFresh(r: Room)
    requires Consistent(r)
    ensures WithCache(r).cache == Stream(r) == Stream(WithCache(r))
    ensures Announced(WithCache(r)) == Announced(r)
  {
    LinkedTwice(r.headers);
    FrameIsNotEmpty(HeaderPayload(r.headers));
  }

  lemma FramesOfPayloads(tags: seq<Tag>, t: Tag)
    ensures Frames(Payloads(tags + [t])) == Frames(Payloads(tags)) + TagFrame(t)
  {
    assert Payloads(tags + [t]) == Payloads(tags) + [t.Serialized()];
    FramesAppend(Payloads(tags), [t.Serialized()]);
    var one := [t.Serialized()];
    assert one[1..] == [];
    assert Frames(one) == Frame(one[0]) + [];
  }

  lemma OwedAfterPublish(stream: seq<Byte>, size: nat, published: seq<Tag>, from: nat, t: Tag)
    requires size < TWO_TO_32 && from < |published|
    ensures Owed(stream, size, published + [t], from) == Owed(stream, size, published, from) + TagFrame(t)
  {
    var s := Segment(size, published, from);
    assert Segment(size, published + [t], from) == s + [t];
    FramesOfPayloads(s, t);
  }

  lemma OwedAtJoin(stream: seq<Byte>, size: nat, published: seq<Tag>)
    requires size < TWO_TO_32 && published != []
    ensures Owed(stream, size, published, |published| - 1)
      == stream + TagFrame(published[|published| - 1].WithPrevious(size))
  {
    var t := published[|published| - 1].WithPrevious(size);
    assert Segment(size, published, |published| - 1) == [] + [t];
    FramesOfPayloads([], t);
  }

  lemma GiveTwice(viewers: map<string, Viewer>, a: seq<Byte>, b: seq<Byte>)
    ensures GiveAll(GiveAll(viewers, a), b) == GiveAll(viewers, a + b)
    ensures GiveAll(viewers, []) == viewers
  {
    assert forall v: Viewer :: v.sent + a + b == v.sent + (a + b) && v.sent + [] == v.sent;
  }

  /** A run of publications: every viewer gets the frames of all its tags, and nothing else changes
      but the last tag. */
  lemma {:induction false} PublishAllShows(r: Room, tags: seq<Tag>)
    ensures var r' := PublishAll(r, tags);
      && r'.published == r.published + tags && r'.viewers == Shown(r.viewers, tags)
      && r'.headers == r.headers && r'.cache == r.cache && r'.response == r.response
      && r'.last == if tags == [] then r.last else Some(tags[|tags| - 1])
    decreases |tags|
  {
    if tags == [] {
      GiveTwice(r.viewers, [], []);
      assert r.published + [] == r.published;
    } else {
      var t, more := tags[0], tags[1..];
      PublishAllShows(Publish(r, t), more);
      GiveTwice(r.viewers, TagFrame(t), Frames(Payloads(more)));
      assert Payloads(tags)[1..] == Payloads(more);
      assert r.published + [t] + more == r.published + tags;
    }
  }

  lemma FedNone(r: Room, headers: Headers)
    ensures Fed(r, r.(headers := headers), headers, [])
  {
  }

  lemma PublishFeeds(r: Room, t: Tag)
    ensures Fed(r, Publish(r, t), r.headers, [t])
  {
    assert PublishAll(Publish(r, t), []) == Publish(r, t);
  }

  lemma FedTwice(r0: Room, r1: Room, r2: Room, h1: Headers, h2: Headers, a: seq<Tag>, b: seq<Tag>)
    requires Fed(r0, r1, h1, a) && Fed(r1, r2, h2, b) && (h1 == h2 || a == [])
    ensures Fed(r0, r2, h2, a + b)
  {
    PublishAllShows(r0.(headers := h1), a);
    PublishAllAppend(r0.(headers := h2), a, b);
  }

  lemma GiveGets(v: Viewer, owed: seq<Byte>, bytes: seq<Byte>)
    requires Gets(v, owed)
    ensures Gets(v.Give(bytes), owed + bytes)
  {
  }

  lemma PublishServes(r: Room, t: Tag)
    requires Served(r)
    ensures Served(Publish(r, t))
  {
    var r' := Publish(r, t);
    var stream, size := Stream(r), Announced(r);
    forall n | n in r'.viewers
      ensures ViewerServed(r'.viewers[n], stream, size, r'.published)
    {
      var v := r.viewers[n];
      assert ViewerServed(v, stream, size, r.published);
      GiveGets(v, Owed(stream, size, r.published, v.from), TagFrame(t));
      OwedAfterPublish(stream, size, r.published, v.from, t);
    }
  }

  /** The newcomer gets the header stream and the last tag. */
  lemma NewcomerServed(stream: seq<Byte>, size: nat, published: seq<Tag>, last: Tag, open: bool)
    requires size < TWO_TO_32 && published != [] && SameButPrevious(last, published[|published| - 1])
    ensures ViewerServed(Viewer(open, [], |published| - 1).Give(stream).Give(TagFrame(last.WithPrevious(size))),
      stream, size, published)
  {
    var v := Viewer(open, [], |published| - 1);
    SameWithPrevious(last, published[|published| - 1], size);
    OwedAtJoin(stream, size, published);
    GiveGets(v, [], stream);
    assert [] + stream == stream;
    GiveGets(v.Give(stream), stream, TagFrame(last.WithPrevious(size)));
  }

  /** A join leaves what every other viewer was sent, and what the next tag will announce. */
  lemma JoinChangesNoOther(r: Room, name: string, open: bool)
    requires r.last.Some? && r.published != []
    ensures var r' := Join(r, name, open);
      && r'.viewers.Keys == r.viewers.Keys + {name} && r'.last.Some?
      && (forall n :: n in r.viewers && n != name ==> r'.viewers[n] == r.viewers[n])
      && r'.last.value.CurrentTagSize() == r.last.value.CurrentTagSize()
  {
  }

  /** The next tag will announce the same size as without the join. */
  lemma JoinKeepsSize(r: Room, name: string, open: bool)
    requires Served(r) && r.last.Some?
    ensures r.published != []
    ensures var r' := Join(r, name, open);
      r'.last.Some? && r'.last.value.CurrentTagSize() == r.last.value.CurrentTagSize()
  {
    WithPreviousFields(r.last.value, WithCache(r).headers.second.CurrentTagSize());
  }

  lemma SameHeadersSameStream(r: Room, r': Room)
    requires r'.response == r.response && r'.headers == r.headers
    ensures Stream(r') == Stream(r) && Announced(r') == Announced(r)
  {
  }

  lemma JoinKeepsStream(r: Room, name: string, open: bool)
    requires Consistent(r) && r.last.Some?
    ensures var r' := Join(r, name, open);
      r'.cache == Stream(r') == Stream(r) && Announced(r') == Announced(r)
  {
    CachedEqualsFresh(r);
    SameHeadersSameStream(WithCache(r), Join(r, name, open));
  }

  lemma JoinKeepsLast(r: Room, name: string, open: bool)
    requires Consistent(r) && r.last.Some?
    ensures var r' := Join(r, name, open);
      && r'.published == r.published && r'.last.Some?
      && SameButPrevious(r'.last.value, r.published[|r.published| - 1])
  {
    SameWithPrevious(r.last.value, r.published[|r.published| - 1], Announced(WithCache(r)));
  }

  lemma AnnouncedIs(r: Room)
    ensures Announced(WithCache(r)) == WithCache(r).headers.second.CurrentTagSize()
  {
  }

  /** The newcomer is the only viewer that changes. */
  lemma JoinAdds(r: Room, name: string, open: bool)
    requires Consistent(r) && r.last.Some?
    ensures var t := r.last.value.WithPrevious(Announced(r));
      var v := Viewer(open, [], |r.published| - 1).Give(Stream(r)).Give(TagFrame(t));
      Join(r, name, open).viewers == r.viewers[name := v]
  {
    hide Stream, Announced, TagFrame;
    CachedEqualsFresh(r);
    AnnouncedIs(r);
  }

  lemma OneMoreServed(viewers: map<string, Viewer>, name: string, v: Viewer, stream: seq<Byte>, size: nat,
                      published: seq<Tag>)
    requires size < TWO_TO_32
    requires AllServed(viewers, stream, size, published) && ViewerServed(v, stream, size, published)
    ensures AllServed(viewers[name := v], stream, size, published)
  {
  }

  lemma JoinServes(r: Room, name: string, open: bool)
    requires Served(r) && r.last.Some?
    ensures Served(Join(r, name, open))
  {
    hide Join, Stream, Announced, TagFrame, ViewerServed, AllServed, SameButPrevious;
    NewcomerServed(Stream(r), Announced(r), r.published, r.last.value, open);
    JoinKeepsStream(r, name, open);
    JoinKeepsLast(r, name, open);
    JoinAdds(r, name, open);
    var v := Join(r, name, open).viewers[name];
    OneMoreServed(r.viewers, name, v, Stream(r), Announced(r), r.published);
  }

  lemma CloseServes(r: Room, name: string)
    requires Served(r)
    ensures Served(Close(r, name))
  {
    if name in r.viewers {
      var v := r.viewers[name];
      SameHeadersSameStream(r, Close(r, name));
      assert ViewerServed(v, Stream(r), Announced(r), r.published);
      OneMoreServed(r.viewers, name, v.(open := false), Stream(r), Announced(r), r.published);
    }
  }

  lemma LeaveServes(r: Room, name: string)
    requires Served(r)
    ensures Served(Leave(r, name))
  {
    forall n | n in Leave(r, name).viewers
      ensures ViewerServed(r.viewers[n], Stream(r), Announced(r), r.published)
    {
    }
  }

  /** A viewer that leaves is taken out, and nothing else changes. */
  lemma LeaveChangesNoOther(r: Room, name: string)
    ensures var r' := Leave(r, name);
      && name !in r'.viewers
      && (forall n :: n in r.viewers && n != name ==> n in r'.viewers && r'.viewers[n] == r.viewers[n])
      && (forall n :: n in r'.viewers ==> n in r.viewers)
      && r' == r.(viewers := r'.viewers)
  {
  }

  /** A connection that closes takes no more data; it and all others keep what they were sent. */
  lemma CloseChangesNoOther(r: Room, name: string)
    ensures var r' := Close(r, name);
      && (forall n :: n in r'.viewers <==> n in r.viewers)
      && (forall n :: n in r.viewers ==>
          r'.viewers[n] == if n == name then r.viewers[n].(open := false) else r.viewers[n])
      && r' == r.(viewers := r'.viewers)
  {
  }

  /** The event lets `name` join or leave. */
  predicate Moves(e: Event, name: string) {
    (e.Joins? || e.Leaves?) && e.name == name
  }

  predicate NoneMoves(events: seq<Event>, name: string) {
    forall e :: e in events ==> !Moves(e, name)
  }

  lemma StepKeepsMember(r: Room, e: Event, name: string)
    requires Enabled(r, e) && !Moves(e, name)
    ensures name in Step(r, e).viewers <==> name in r.viewers
    ensures name in r.viewers ==> Step(r, e).viewers[name].from == r.viewers[name].from
  {
    match e
    case Joins(n, open) => JoinChangesNoOther(r, n, open);
    case Leaves(n) => LeaveChangesNoOther(r, n);
    case Closes(n) => CloseChangesNoOther(r, n);
    case _ =>
  }

  lemma {:induction false} RunKeepsMember(r: Room, events: seq<Event>, name: string)
    requires EnabledRun(r, events) && NoneMoves(events, name)
    ensures name in Run(r, events).viewers <==> name in r.viewers
    ensures name in r.viewers ==> Run(r, events).viewers[name].from == r.viewers[name].from
    decreases |events|
  {
    hide Step, Enabled;
    if events != [] {
      assert events[0] in events;
      StepKeepsMember(r, events[0], name);
      RunKeepsMember(Step(r, events[0]), events[1..], name);
    }
  }

  lemma JoinAddsOne(r: Room, name: string, open: bool)
    requires r.last.Some? && r.published != []
    ensures var r' := Join(r, name, open); name in r'.viewers && r'.viewers[name].from == |r.published| - 1
  {
  }

  /** Who has joined and not left since is there, and is owed all tags from the last one before its join on;
      who has left and not joined since is not. Nobody else's coming or going matters. */
  lemma MembersAreThere(r: Room, e: Event, later: seq<Event>, name: string)
    requires Enabled(r, e) && EnabledRun(Step(r, e), later) && Moves(e, name) && NoneMoves(later, name)
    ensures var viewers := Run(Step(r, e), later).viewers;
      && (name in viewers <==> e.Joins?)
      && (e.Joins? ==> r.published != [] && viewers[name].from == |r.published| - 1)
  {
    hide Run;
    RunKeepsMember(Step(r, e), later, name);
    if e.Joins? {
      JoinAddsOne(r, name, e.open);
    } else {
      LeaveChangesNoOther(r, name);
    }
  }

  lemma StepServes(r: Room, e: Event)
    requires Served(r) && Enabled(r, e)
    ensures Served(Step(r, e))
  {
    match e
    case SetHeaders(h) =>
    case Publishes(t) => PublishServes(r, t);
    case Joins(name, open) => JoinServes(r, name, open);
    case Closes(name) => CloseServes(r, name);
    case Leaves(name) => LeaveServes(r, name);
  }

  /** In every run, every viewer was sent a prefix of what it is owed, and all of it while its connection is open. */
  lemma {:induction false} RunServes(r: Room, events: seq<Event>)
    requires Served(r) && EnabledRun(r, events)
    ensures Served(Run(r, events))
    decreases |events|
  {
    if events != [] {
      StepServes(r, events[0]);
      RunServes(Step(r, events[0]), events[1..]);
    }
  }

  lemma EmptyRoomServed(response: seq<Byte>, h: Headers)
    ensures Served(Empty(response, h))
  {
  }

  // ---------------------------------------------------------------- what client and player make of it

  lemma {:induction false} ConcatPayloads(tags: seq<Tag>)
    ensures Concat(Payloads(tags)) == SerializeAll(tags)
  {
    if tags != [] {
      ConcatPayloads(tags[1..]);
      assert Payloads(tags)[1..] == Payloads(tags[1..]);
    }
  }

  lemma HeaderPayloadFits(h: Headers)
    requires h.Sized()
    ensures |Block(h)| == h.BlockSize() > 0
    ensures HeaderPayload(h) == if h.BlockSize() <= HEADER_CAPACITY then Block(h) else []
  {
    BlockLength(h);
  }

  /** Chunks of tags decode to the tags. */
  lemma UnchunkTags(tags: seq<Tag>)
    ensures Unchunk(Frames(Payloads(tags))) == SerializeAll(tags)
  {
    UnchunkFrames(Payloads(tags));
    ConcatPayloads(tags);
  }

  lemma UnchunkBlock(block: seq<Byte>, tags: seq<Tag>)
    requires block != []
    ensures Unchunk(Frame(block) + Frames(Payloads(tags))) == block + SerializeAll(tags)
  {
    UnchunkFrame(block, Frames(Payloads(tags)));
    UnchunkTags(tags);
  }

  lemma BlockThenTags(h: Headers, tags: seq<Tag>)
    ensures Block(h) + SerializeAll(tags) == FlvFile(h.Linked().Tags() + tags)
  {
    var first := h.Linked().Tags();
    SerializeAppend(first, tags);
    assert DEFAULT_HEADER + SerializeAll(first) + SerializeAll(tags)
        == DEFAULT_HEADER + (SerializeAll(first) + SerializeAll(tags));
  }

  /** An HTTP client strips the chunked coding and is left with an FLV file: the header block, then the tags. */
  lemma ClientSeesFlv(h: Headers, tags: seq<Tag>)
    requires h.Sized() && h.BlockSize() <= HEADER_CAPACITY
    ensures Unchunk(Frame(HeaderPayload(h)) + Frames(Payloads(tags)))
      == FlvFile(h.Linked().Tags() + tags)
  {
    HeaderPayloadFits(h);
    UnchunkBlock(Block(h), tags);
    BlockThenTags(h, tags);
  }

  lemma EmptyChunkEndsStream(rest: seq<Byte>)
    ensures Unchunk(Frame([]) + rest) == []
  {
    FrameShape([], rest);
    ReadsPrintedSize(0, CRLF + ([] + (CRLF + rest)), 0);
    ReadsLineEnd([] + (CRLF + rest), 0, |ToHexString(0)|);
  }

  /** A header block too large for the temporary buffer is sent as an empty chunk, which ends the
      client's stream before it starts. It gets the block if and only if that has at most 4096 bytes. */
  lemma ClientSeesBlockIffFits(h: Headers, rest: seq<Byte>)
    requires h.Sized()
    ensures Block(h) <= Unchunk(Frame(HeaderPayload(h)) + rest) <==> |Block(h)| <= 4096
    ensures |Block(h)| > 4096 ==> Unchunk(Frame(HeaderPayload(h)) + rest) == []
  {
    HeaderPayloadFits(h);
    if h.BlockSize() <= HEADER_CAPACITY {
      UnchunkFrame(Block(h), rest);
    } else {
      EmptyChunkEndsStream(rest);
    }
  }

  lemma ChainedThree(a: Tag, b: Tag, c: Tag)
    requires a.PreviousTagSize() == 0
    requires b.PreviousTagSize() == a.CurrentTagSize() && c.PreviousTagSize() == b.CurrentTagSize()
    ensures Chained(0, [a, b, c])
  {
    assert [a, b, c][1..] == [b, c] && [b, c][1..] == [c] && [c][1..] == [];
    assert Chained(c.CurrentTagSize(), []);
    assert Chained(b.CurrentTagSize(), [c]);
    assert Chained(a.CurrentTagSize(), [b, c]);
  }

  lemma ChainedSuffix(published: seq<Tag>, from: nat)
    requires from < |published| && Chained(0, published)
    ensures Chained(published[from].CurrentTagSize(), published[from + 1..])
  {
    var before, rest := published[..from], published[from..];
    assert published == before + rest;
    ChainedAppend(0, before, rest);
    assert rest[1..] == published[from + 1..] && rest[0] == published[from];
  }

  lemma SegmentChained(size: nat, published: seq<Tag>, from: nat)
    requires size < TWO_TO_32 && from < |published| && Chained(0, published)
    ensures Chained(size, Segment(size, published, from))
  {
    ChainedSuffix(published, from);
    WithPreviousFields(published[from], size);
    assert Segment(size, published, from)[1..] == published[from + 1..];
  }

  /** The tags on the stream of a viewer that joined at `from`. */
  function StreamTags(h: Headers, published: seq<Tag>, from: nat): seq<Tag>
    requires from < |published|
  {
    h.Linked().Tags() + Segment(h.second.CurrentTagSize(), published, from)
  }

  /** The tags that a player finds announce each other's sizes, across the border between header and live tags too. */
  lemma StreamChained(h: Headers, published: seq<Tag>, from: nat)
    requires from < |published| && h.script.PreviousTagSize() == 0 && Chained(0, published)
    ensures Chained(0, StreamTags(h, published, from))
  {
    var linked := h.Linked();
    var segment := Segment(h.second.CurrentTagSize(), published, from);
    LinkedFields(h);
    ChainedThree(linked.script, linked.first, linked.second);
    SegmentChained(h.second.CurrentTagSize(), published, from);
    ChainedAppend(0, linked.Tags(), segment);
  }

  lemma StreamSized(h: Headers, published: seq<Tag>, from: nat)
    requires from < |published| && AllSized(published) && h.Sized()
    ensures AllSized(StreamTags(h, published, from))
  {
    LinkedFields(h);
    WithPreviousFields(published[from], h.second.CurrentTagSize());
    assert AllSized(Segment(h.second.CurrentTagSize(), published, from));
    assert AllSized(h.Linked().Tags());
  }

  /** The chain as the player sees it. */
  lemma {:induction false} ChainIsPlayed(previous: nat, tags: seq<Tag>)
    ensures Chained(previous, tags) <==> Linked(previous, AllPlayed(tags))
    decreases |tags|
  {
    if tags != [] {
      ChainIsPlayed(tags[0].CurrentTagSize(), tags[1..]);
      assert AllPlayed(tags)[1..] == AllPlayed(tags[1..]);
    }
  }

  /** A stream of well-formed tags behind headers that fit. */
  predicate Playable(h: Headers, published: seq<Tag>) {
    && h.Sized() && h.BlockSize() <= HEADER_CAPACITY && h.script.PreviousTagSize() == 0
    && AllSized(published) && Chained(0, published)
  }

  lemma BehindResponse(response: seq<Byte>, header: seq<Byte>, frames: seq<Byte>)
    ensures response <= response + header + frames
    ensures (response + header + frames)[|response|..] == header + frames
  {
  }

  /** A player accepts the file and shows exactly these tags, each announcing the size of the one before. */
  predicate PlaysAs(file: seq<Byte>, tags: seq<Tag>) {
    PlayFile(file) == Some(AllPlayed(tags)) && Linked(0, AllPlayed(tags))
  }

  /** What a viewer is owed decodes, behind the response header, to an FLV file in which a player finds
      the three header tags and then the published tags from the last one before the join on. */
  lemma OwedIsFlv(response: seq<Byte>, h: Headers, published: seq<Tag>, from: nat)
    requires from < |published| && Playable(h, published)
    ensures var owed := Owed(HeaderStream(response, h), h.second.CurrentTagSize(), published, from);
      var tags := StreamTags(h, published, from);
      && response <= owed
      && Unchunk(owed[|response|..]) == FlvFile(tags) && PlaysAs(FlvFile(tags), tags)
  {
    var segment := Segment(h.second.CurrentTagSize(), published, from);
    BehindResponse(response, Frame(HeaderPayload(h)), Frames(Payloads(segment)));
    ClientSeesFlv(h, segment);
    StreamChained(h, published, from);
    StreamSized(h, published, from);
    PlayerReadsFile(StreamTags(h, published, from));
    ChainIsPlayed(0, StreamTags(h, published, from));
  }

  /** In every run from an empty room, with sized and chained tags: a viewer with an open connection has
      been sent a stream that plays the header tags and its gap-free segment; a closed one a prefix of it. */
  lemma EveryViewerSeesFlv(response: seq<Byte>, h: Headers, events: seq<Event>, n: string)
    requires EnabledRun(Empty(response, h), events)
    requires var r := Run(Empty(response, h), events); n in r.viewers && Playable(r.headers, r.published)
    ensures var r := Run(Empty(response, h), events);
      var v := r.viewers[n];
      && v.from < |r.published|
      && var tags := StreamTags(r.headers, r.published, v.from);
      && v.sent <= Owed(Stream(r), Announced(r), r.published, v.from)
      && (v.open ==>
        && r.response <= v.sent
        && Unchunk(v.sent[|r.response|..]) == FlvFile(tags) && PlaysAs(FlvFile(tags), tags))
  {
    EmptyRoomServed(response, h);
    RunServes(Empty(response, h), events);
    var r := Run(Empty(response, h), events);
    assert ViewerServed(r.viewers[n], Stream(r), Announced(r), r.published);
    OwedIsFlv(r.response, r.headers, r.published, r.viewers[n].from);
  }
}
