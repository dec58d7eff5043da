/**
 Both ends together, in their own terms: an encoder writes packets, players show tags. Between them is the
 server with its loops, its rooms and its sends; it does not show in the result.
 */
module EndToEnd {
  import opened Bytes
  import opened FlvCodec
  import opened FlvManagers
  import opened Format
  import opened HttpChunks
  import opened FanOut
  import opened Players
  import opened SendPipeline
  import opened Broadcast
  import opened Senders
  import Dechunker
  import HandshakeClients
  import HandshakeReads
  import Publisher
  import PublisherRuns
  import RtmpCodec
  import RtmpManagers
  import Viewers

  /** What an accepted connection starts with: the parser of the state from which all runs below begin, and
      an empty room. */
  method NewManager(response: seq<Byte>, garbage: RtmpCodec.PackHeader) returns (manager: RtmpManagers.RtmpManager)
    ensures manager.Valid() && manager.state == AtFirst(garbage)
    ensures manager.clients_.room == Empty(response, AtFirst(garbage).headers)
  {
    var flv := new FlvManager();
    var clients := new Viewers.ClientConnections(response, flv);
    manager := new RtmpManagers.RtmpManager(clients, garbage);
    assert flv.Value().script == flv.Value().first == flv.Value().second == Publisher.Blank();
  }

  /** What the player of a viewer that joined behind the tag `from` shows when `count` are published: the three
      leading packets, and the audio and video packets from that one on. */
  function ToShow(lead: seq<Packet>, packets: seq<Packet>, from: nat, count: nat): seq<Played>
    requires |lead| == 3 && from < count <= |Live(lead, packets)|
  {
    var live := Live(lead, packets);
    Told(0, 0, lead, true) + [live[from].(previous := 11 + |lead[2].body|)] + live[from + 1..count]
  }

  /** The player of the viewer `n` shows the beginning of that, and all of it when nothing is waiting. */
  predicate PlayerShows(response: seq<Byte>, lead: seq<Packet>, packets: seq<Packet>, j: Joint, n: string)
    requires |lead| == 3
  {
    var r, w := j.live.room, On(j.loops, n);
    && n in r.viewers && n in w.connections && n in j.base
    && r.viewers[n].from < |r.published| <= |Live(lead, packets)|
    && var wire, begin := w.connections[n].wire, |j.base[n] + response|;
       var tags := ToShow(lead, packets, r.viewers[n].from, |r.published|);
    && (begin <= |wire| ==> PlaysPart(Unchunk(wire[begin..]), tags))
    && (w.connections[n].status == CONNECTED && w.connections[n].sendBuffer == [] && Queued(w, n) == []
        && DueTo(j.todo, n) == [] ==>
        begin <= |wire| && PlayFile(Unchunk(wire[begin..])) == Some(tags))
    && Linked(0, tags)
  }

  /** Everything that is received is shown to everybody who is there to see it. */
  predicate Shown(response: seq<Byte>, lead: seq<Packet>, packets: seq<Packet>, received: seq<Byte>, j: Joint)
    requires Opening(lead) && Encoded(packets)
  {
    && j.live.state.core.readChunk < 4096
    && AllPlayed(j.live.room.published) <= Live(lead, packets)
    && (!j.live.state.leading && received == OpeningWritten(lead) + Written(packets)
        && Dechunker.Drained(j.live.state.core, j.live.buf) ==>
        AllPlayed(j.live.room.published) == Live(lead, packets))
    && forall n :: n in j.live.room.viewers ==> PlayerShows(response, lead, packets, j, n)
  }

  lemma RelinkedIsPlayed(t: Tag, size: nat)
    requires size < TWO_TO_32
    ensures AsPlayed(t.WithPrevious(size)) == AsPlayed(t).(previous := size)
  {
    WithPreviousFields(t, size);
    var u := t.WithPrevious(size);
    assert u.header[11] == u.header[4..][7] == t.header[11];
    assert u.header[12..15] == u.header[4..][8..11] == t.header[12..15];
  }

  lemma SegmentIsPlayed(size: nat, published: seq<Tag>, from: nat)
    requires size < TWO_TO_32 && from < |published|
    ensures AllPlayed(Segment(size, published, from))
      == [AllPlayed(published)[from].(previous := size)] + AllPlayed(published)[from + 1..]
  {
    hide AsPlayed, Tag.WithPrevious;
    RelinkedIsPlayed(published[from], size);
  }

  lemma AppendIsPlayed(a: seq<Tag>, b: seq<Tag>)
    ensures AllPlayed(a + b) == AllPlayed(a) + AllPlayed(b)
  {
    hide AsPlayed;
  }

  /** The tags on a viewer's stream are what is to be shown. */
  lemma {:induction false} StreamIsToShow(h: Headers, lead: seq<Packet>, packets: seq<Packet>, published: seq<Tag>,
                                          from: nat)
    requires |lead| == 3 && AllPlayed(h.Linked().Tags()) == Told(0, 0, lead, true)
    requires h.second.CurrentTagSize() == 11 + |lead[2].body|
    requires from < |published| && AllPlayed(published) <= Live(lead, packets)
    ensures AllPlayed(StreamTags(h, published, from)) == ToShow(lead, packets, from, |published|)
  {
    hide AsPlayed, Told, Segment, Headers.Linked;
    var size := h.second.CurrentTagSize();
    SegmentIsPlayed(size, published, from);
    AppendIsPlayed(h.Linked().Tags(), Segment(size, published, from));
    var live := Live(lead, packets);
    assert AllPlayed(published)[from + 1..] == live[from + 1..|published|];
  }

  lemma {:induction false} WatchesIsShown(response: seq<Byte>, h: Headers, lead: seq<Packet>, packets: seq<Packet>,
                                          j: Joint, n: string)
    requires |lead| == 3 && AllPlayed(h.Linked().Tags()) == Told(0, 0, lead, true)
    requires h.second.CurrentTagSize() == 11 + |lead[2].body|
    requires AllPlayed(j.live.room.published) <= Live(lead, packets)
    requires Watches(response, h, j, n)
    ensures PlayerShows(response, lead, packets, j, n)
  {
    hide Unchunk, FlvFile, PlayFile, PlaysPart, StreamTags, ToShow, Told, Queued, DueTo, On, AllPlayed;
    var r := j.live.room;
    StreamIsToShow(h, lead, packets, r.published, r.viewers[n].from);
  }

  lemma PlayedPrefix(part: seq<Tag>, all: seq<Tag>)
    requires part <= all
    ensures AllPlayed(part) <= AllPlayed(all)
  {
    hide AsPlayed;
  }

  lemma {:induction false} DeliversIsShown(response: seq<Byte>, garbage: RtmpCodec.PackHeader, lead: seq<Packet>,
                                           packets: seq<Packet>, received: seq<Byte>, j: Joint)
    requires Opening(lead) && |OpeningWritten(lead)| <= 1000 && Encoded(packets)
    requires AsLead(lead).Valid() && PublisherRuns.Ready(AtFirst(garbage))
    requires var stream := OpeningWritten(lead) + Written(packets);
      AsLead(lead).Bytes() <= stream && Delivers(response, AtFirst(garbage), AsLead(lead), stream, received, j)
    ensures Shown(response, lead, packets, received, j)
  {
    var stream := OpeningWritten(lead) + Written(packets);
    hide PublisherRuns.Lead.Formed, PublisherRuns.Lead.Bytes, PublisherRuns.Led, PublisherRuns.TagsOf;
    hide Watches, PlayerShows;
    hide Live, Told, Headers.Linked, AllPlayed, Dechunker.Drained, Written, OpeningWritten;
    StreamIsTold(garbage, lead, packets);
    HeadersAreTold(garbage, lead);
    PlayedPrefix(j.live.room.published, PublisherRuns.TagsOf(AtFirst(garbage), AsLead(lead), stream));
    var h := PublisherRuns.Led(AtFirst(garbage), AsLead(lead)).headers;
    forall n | n in j.live.room.viewers
      ensures PlayerShows(response, lead, packets, j, n)
    {
      WatchesIsShown(response, h, lead, packets, j, n);
    }
  }

  /** Packets of a publisher, written by the rules of RTMP, cut in any way, among joins, leaves, losses and any
      number of loops: every player shows the three leading packets and then, from the last tag before its join
      on, exactly the packets of types 8 and 9, in order, with their types, sizes and data, each announcing the
      size of the one before, at the sums of the publisher's times. */
  lemma {:induction false} EveryPlayerShows(response: seq<Byte>, garbage: RtmpCodec.PackHeader, lead: seq<Packet>,
                                            packets: seq<Packet>, setting: Setting, events: seq<JointEvent>)
    requires Opening(lead) && |OpeningWritten(lead)| <= 1000 && Encoded(packets)
    requires PublisherRuns.Received(OwnEvents(events)) <= OpeningWritten(lead) + Written(packets)
    requires OrderlyRun(Begun(response, AtFirst(garbage), setting), events)
    ensures CanRun(Begun(response, AtFirst(garbage), setting), events)
    ensures Shown(response, lead, packets, PublisherRuns.Received(OwnEvents(events)),
                  JointRun(Begun(response, AtFirst(garbage), setting), events))
  {
    var stream := OpeningWritten(lead) + Written(packets);
    hide PublisherRuns.Lead.Formed, PublisherRuns.Lead.Bytes, Dechunker.Future;
    hide JointRun, CanRun, OrderlyRun, Delivers, Shown;
    hide Opening, Encoded, OpeningWritten, Written, Begun, Publisher.Blank;
    StreamIsTold(garbage, lead, packets);
    BlankFields();
    ViewersWatch(response, AtFirst(garbage), AsLead(lead), stream, setting, events);
    DeliversIsShown(response, garbage, lead, packets, PublisherRuns.Received(OwnEvents(events)),
      JointRun(Begun(response, AtFirst(garbage), setting), events));
  }

  /** The same from the first byte of the publisher's handshake to the last tag on the screen. */
  lemma {:induction false} FromHandshakeToScreen(client: HandshakeClients.Client, tail: seq<Byte>,
                                                 cuts: seq<HandshakeReads.Read>, response: seq<Byte>,
                                                 garbage: RtmpCodec.PackHeader, lead: seq<Packet>,
                                                 packets: seq<Packet>, setting: Setting, events: seq<JointEvent>)
    requires client.Valid() && HandshakeReads.Total(cuts) == client.Bytes() + tail
    requires !HandshakeReads.CutsC3(client, cuts)
    requires Opening(lead) && |OpeningWritten(lead)| <= 1000 && Encoded(packets)
    requires tail + PublisherRuns.Received(OwnEvents(events)) <= OpeningWritten(lead) + Written(packets)
    requires OrderlyRun(Begun(response, AtFirst(garbage), setting), [Arrives(tail)] + events)
    ensures var l := HandshakeReads.ReadRun(cuts);
      && (l.takesBody <==> HandshakeReads.Before(cuts) >= HandshakeReads.UpToRelease(client))
      && (l.takesBody ==>
          var j := TakenOver(response, AtFirst(garbage), setting, l.progress.buf);
          && CanRun(j, events)
          && Shown(response, lead, packets, tail + PublisherRuns.Received(OwnEvents(events)), JointRun(j, events)))
  {
    var stream := OpeningWritten(lead) + Written(packets);
    hide PublisherRuns.Lead.Formed, PublisherRuns.Lead.Bytes, Dechunker.Future;
    hide JointRun, CanRun, OrderlyRun, Delivers, Shown;
    hide Opening, Encoded, OpeningWritten, Written, Begun, Publisher.Blank, TakenOver;
    hide HandshakeReads.CutsC3, HandshakeReads.ReadRun, HandshakeReads.UpToRelease;
    StreamIsTold(garbage, lead, packets);
    BlankFields();
    ArriveFirst(tail, events);
    FromTheFirstByte(client, tail, cuts, response, AtFirst(garbage), AsLead(lead), stream, setting, events);
    var l := HandshakeReads.ReadRun(cuts);
    if l.takesBody {
      DeliversIsShown(response, garbage, lead, packets, tail + PublisherRuns.Received(OwnEvents(events)),
        JointRun(TakenOver(response, AtFirst(garbage), setting, l.progress.buf), events));
    }
  }
}
