/**
 The publisher's end: an encoder that writes message headers and chunks byte by byte (section 5.3.1 of the
 RTMP Specification 1.0), and what a viewer's player is to show of them. Nothing of it is taken from the
 server; the results say that its chunker, its types and its clock agree with this one.
 */
module Senders {
  import opened Bytes
  import opened RtmpCodec
  import opened Dechunker
  import opened FlvCodec
  import opened FlvManagers
  import opened Chunker
  import opened Players
  import opened Publisher
  import opened PublisherRuns
  import opened Timeline

  /** A message with the header format, chunk stream and message stream that its sender chooses. */
  datatype Packet = Packet(fmt: nat, csid: nat, timestamp: Three, code: Byte, streamId: seq<Byte>, body: seq<Byte>)

  predicate Formed(p: Packet) {
    p.fmt < 4 && p.csid < 64 && |p.streamId| == 4 && |p.body| < 0x100_0000
  }

  /** The message header: everything, or what the packet before does not say already. */
  function Head(p: Packet): seq<Byte>
    requires Formed(p)
  {
    var size: seq<Byte> := [|p.body| / 0x1_0000, |p.body| / 0x100 % 0x100, |p.body| % 0x100];
    [p.fmt * 64 + p.csid]
    + (if p.fmt < 3 then p.timestamp else [])
    + (if p.fmt < 2 then size + [p.code] else [])
    + (if p.fmt == 0 then p.streamId else [])
  }

  /** The body in pieces of 4096 bytes, with a header of format 3 between them. */
  function Pieces(body: seq<Byte>, csid: nat): seq<Byte>
    requires csid < 64
    decreases |body|
  {
    if |body| <= 4096 then body else body[..4096] + [0xc0 + csid] + Pieces(body[4096..], csid)
  }

  /** Formats 2 and 3 may be used where nothing is new. */
  predicate MayFollow(p: Packet, previous: Packet) {
    && (p.fmt >= 2 ==> |p.body| == |previous.body| && p.code == previous.code)
    && (p.fmt == 3 ==> p.timestamp == previous.timestamp)
  }

  /** Packets of a stream whose first says everything. */
  predicate Encoded(packets: seq<Packet>) {
    && (forall i :: 0 <= i < |packets| ==> Formed(packets[i]))
    && (packets != [] ==> packets[0].fmt < 2)
    && forall i :: 0 < i < |packets| ==> MayFollow(packets[i], packets[i - 1])
  }

  function Written(packets: seq<Packet>): seq<Byte>
    requires forall i :: 0 <= i < |packets| ==> Formed(packets[i])
  {
    if packets == [] then []
    else Head(packets[0]) + Pieces(packets[0].body, packets[0].csid) + Written(packets[1..])
  }

  predicate AudioOrVideo(code: Byte) {
    code == 8 || code == 9
  }

  /** Three packets with full headers. */
  predicate Three(lead: seq<Packet>) {
    |lead| == 3 && (forall i :: 0 <= i < 3 ==> Formed(lead[i]) && lead[i].fmt < 2)
  }

  /** The leading messages: type 18, and twice 8 or 9, each with a full header and in one piece. */
  predicate Opening(lead: seq<Packet>) {
    && Three(lead)
    && lead[0].code == 18 && (lead[1].code == 8 || lead[1].code == 9) && (lead[2].code == 8 || lead[2].code == 9)
  }

  function InOnePiece(p: Packet): seq<Byte>
    requires Formed(p)
  {
    Head(p) + p.body
  }

  function OpeningWritten(lead: seq<Packet>): seq<Byte>
    requires Three(lead)
  {
    InOnePiece(lead[0]) + (InOnePiece(lead[1]) + InOnePiece(lead[2]))
  }

  // ---------------------------------------------------------------- what is to be shown

  function Time(p: Packet): nat {
    p.timestamp[0] as int * 0x1_0000 + p.timestamp[1] as int * 0x100 + p.timestamp[2]
  }

  /** Audio and video, or everything of the leading messages. Times of FLV tags are sums of those of RTMP;
      behind the leading messages an empty packet goes unnoticed, and its time does not count. */
  function Told(clock: nat, previous: nat, packets: seq<Packet>, leading: bool): seq<Played>
    decreases |packets|
  {
    if packets == [] then []
    else
      var p := packets[0];
      var now := clock + Time(p);
      if !leading && p.body == [] then Told(clock, previous, packets[1..], leading)
      else if leading || p.code == 8 || p.code == 9 then
        [Played(previous, p.code, |p.body|, now % 0x100_0000, 0, p.body)]
        + Told(now, 11 + |p.body|, packets[1..], leading)
      else Told(now, previous, packets[1..], leading)
  }

  // ---------------------------------------------------------------- the server reads these bytes

  function AsMessage(p: Packet): Message
    requires Formed(p)
  {
    Message(PackHeader(p.timestamp, BE24(|p.body|), PackTypeOf(p.code)), p.body)
  }

  function AsChoice(p: Packet): Choice {
    Choice(p.fmt, p.csid, p.code, p.streamId)
  }

  function Messages(packets: seq<Packet>): (m: seq<Message>)
    requires forall i :: 0 <= i < |packets| ==> Formed(packets[i])
    ensures |m| == |packets|
  {
    seq(|packets|, i requires 0 <= i < |packets| => AsMessage(packets[i]))
  }

  function Choices(packets: seq<Packet>): seq<Choice> {
    seq(|packets|, i requires 0 <= i < |packets| => AsChoice(packets[i]))
  }

  /** The types that matter are kept as they are, and no other becomes one of them. */
  lemma TypesKept(code: Byte)
    ensures PackTypeOf(8) == 8 && PackTypeOf(9) == 9 && PackTypeOf(18) == 18
    ensures PackTypeOf(code) in {8, 9, 18} ==> PackTypeOf(code) == code
    ensures PackTypeOf(code) == code || (PackTypeOf(code) == 0 && code !in {2, 3, 4})
  {
  }

  lemma HeadIsPrinted(p: Packet)
    requires Formed(p)
    ensures PrintHeader(AsMessage(p), AsChoice(p)) == Head(p) && AsMessage(p).Sized()
  {
    U24OfBE24(|p.body|);
  }

  lemma {:induction false} PiecesArePrinted(body: seq<Byte>, csid: nat)
    requires csid < 64
    ensures PrintBody(body, csid) == Pieces(body, csid)
    decreases |body|
  {
    if |body| > 4096 {
      PiecesArePrinted(body[4096..], csid);
    }
  }

  lemma {:induction false} FirstOf(packets: seq<Packet>)
    requires packets != [] && forall i :: 0 <= i < |packets| ==> Formed(packets[i])
    ensures Messages(packets)[0] == AsMessage(packets[0]) && Messages(packets)[1..] == Messages(packets[1..])
    ensures Choices(packets)[0] == AsChoice(packets[0]) && Choices(packets)[1..] == Choices(packets[1..])
  {
  }

  lemma {:induction false} StreamRest(packets: seq<Packet>)
    requires packets != [] && (forall i :: 0 <= i < |packets| ==> Formed(packets[i]))
    requires forall i :: 0 < i < |packets| ==> MayFollow(packets[i], packets[i - 1])
    ensures var rest := packets[1..];
      && (forall i :: 0 <= i < |rest| ==> Formed(rest[i]))
      && (forall i :: 0 < i < |rest| ==> MayFollow(rest[i], rest[i - 1]))
      && (rest != [] ==> MayFollow(rest[0], packets[0]))
  {
    var rest := packets[1..];
    assert forall i :: 0 <= i < |rest| ==> rest[i] == packets[i + 1];
  }

  /** The header `h` says what the packet leaves out. */
  predicate Continues(h: PackHeader, p: Packet) {
    && Formed(p)
    && (p.fmt >= 2 ==> h.dataSize == BE24(|p.body|) && h.packType == PackTypeOf(p.code))
    && (p.fmt == 3 ==> h.timestamp == p.timestamp)
  }

  /** What may follow a packet is allowed behind its message. */
  lemma MayFollowIsAllowed(h: PackHeader, p: Packet)
    requires Continues(h, p)
    ensures Allowed(h, AsMessage(p), AsChoice(p))
  {
    HeadIsPrinted(p);
  }

  /** The bytes written are a printed stream. */
  lemma {:induction false} WrittenIsPrinted(h: PackHeader, packets: seq<Packet>)
    requires forall i :: 0 <= i < |packets| ==> Formed(packets[i])
    requires forall i :: 0 < i < |packets| ==> MayFollow(packets[i], packets[i - 1])
    requires packets != [] ==> Continues(h, packets[0])
    ensures AllAllowed(h, Messages(packets), Choices(packets))
    ensures Print(h, Messages(packets), Choices(packets)) == Written(packets)
    decreases |packets|
  {
    hide Allowed, PackTypeOf, Head, PrintHeader, PrintBody, Pieces, BE24;
    if packets != [] {
      var p := packets[0];
      FirstOf(packets);
      StreamRest(packets);
      MayFollowIsAllowed(h, p);
      HeadIsPrinted(p);
      PiecesArePrinted(p.body, p.csid);
      WrittenIsPrinted(AsMessage(p).header, packets[1..]);
    }
  }

  lemma TimeIs(p: Packet)
    ensures Time(p) == U24(p.timestamp)
  {
  }

  /** No time extension, and stream 0. */
  lemma ZeroIsShown(t: Tag)
    requires t.header[11..] == [0, 0, 0, 0]
    ensures AsPlayed(t) == Played(t.PreviousTagSize(), t.Kind(), t.DataSize(), t.Time(), 0, t.body)
  {
    assert t.header[11] == t.header[11..][0] && t.header[12..15] == t.header[11..][1..];
  }

  lemma ShownPacket(track: Track, clock: nat, p: Packet)
    requires track.Valid() && Formed(p) && track.clock == clock % TWO_TO_32
    ensures var m := AsMessage(p);
      && Tick(track.clock, m) == (clock + Time(p)) % TWO_TO_32
      && AsPlayed(TagOf(track, m))
        == Played(track.previous, PackTypeOf(p.code), |p.body|, (clock + Time(p)) % TWO_TO_24, 0, p.body)
  {
    var m := AsMessage(p);
    TimeIs(p);
    U24OfBE24(|p.body|);
    ModAdd(clock, U24(p.timestamp), TWO_TO_32);
    LowClock(clock + U24(p.timestamp));
    HeaderOfFields(track.previous, m.header.packType, m.header.dataSize, Tick(track.clock, m) % TWO_TO_24, m.body);
    ZeroIsShown(TagOf(track, m));
  }

  lemma TagsFirst(track: Track, m: Message, more: seq<Message>)
    requires track.Valid()
    ensures AllPlayed(Tags(track, [m] + more))
      == (if m.IsMedia() then [AsPlayed(TagOf(track, m))] else []) + AllPlayed(Tags(Next(track, m), more))
  {
    hide TagOf, AsPlayed, Next, Message.IsMedia;
    assert ([m] + more)[0] == m && ([m] + more)[1..] == more;
  }

  lemma TickIs(clock: nat, p: Packet)
    requires Formed(p)
    ensures Tick(clock % TWO_TO_32, AsMessage(p)) == (clock + Time(p)) % TWO_TO_32
  {
    TimeIs(p);
    ModAdd(clock, U24(p.timestamp), TWO_TO_32);
  }

  lemma NextIs(track: Track, clock: nat, p: Packet)
    requires track.Valid() && Formed(p) && track.clock == clock % TWO_TO_32
    ensures Next(track, AsMessage(p))
      == Track((clock + Time(p)) % TWO_TO_32, if AudioOrVideo(p.code) then 11 + |p.body| else track.previous)
    ensures AsMessage(p).IsMedia() <==> AudioOrVideo(p.code)
  {
    TypesKept(p.code);
    U24OfBE24(|p.body|);
    TickIs(clock, p);
    hide Tick, PackTypeOf, Time, BE24;
  }

  /** What one packet adds to what is shown, in front of the tags of `more`. */
  lemma {:induction false} ShownStep(track: Track, clock: nat, p: Packet, more: seq<Message>)
    requires track.Valid() && Formed(p) && track.clock == clock % TWO_TO_32
    ensures var m, next := AsMessage(p), Next(track, AsMessage(p));
      var shown := Played(track.previous, p.code, |p.body|, (clock + Time(p)) % TWO_TO_24, 0, p.body);
      && next == Track((clock + Time(p)) % TWO_TO_32, if AudioOrVideo(p.code) then 11 + |p.body| else track.previous)
      && AllPlayed(Tags(track, [m] + more))
        == (if AudioOrVideo(p.code) then [shown] else []) + AllPlayed(Tags(next, more))
  {
    TypesKept(p.code);
    hide TagOf, AsPlayed, PackTypeOf, Tick, Time, AsMessage, Tags, AllPlayed, Next;
    NextIs(track, clock, p);
    ShownPacket(track, clock, p);
    TagsFirst(track, AsMessage(p), more);
  }

  lemma FullFirst(m: Message, more: seq<Message>)
    ensures Full([m] + more) == if m.body == [] then Full(more) else [m] + Full(more)
  {
    assert ([m] + more)[0] == m && ([m] + more)[1..] == more;
  }

  /** The tags that the server makes are those that are to be shown. */
  lemma {:induction false} TagsAreTold(track: Track, clock: nat, packets: seq<Packet>)
    requires track.Valid() && track.clock == clock % TWO_TO_32
    requires forall i :: 0 <= i < |packets| ==> Formed(packets[i])
    ensures AllPlayed(Tags(track, Full(Messages(packets)))) == Told(clock, track.previous, packets, false)
    decreases |packets|
  {
    if packets != [] {
      var p, more := packets[0], Messages(packets[1..]);
      FirstOf(packets);
      assert Messages(packets) == [AsMessage(p)] + more;
      hide Tags, Next, AllPlayed, Full, Messages, Time;
      FullFirst(AsMessage(p), more);
      if p.body == [] {
        TagsAreTold(track, clock, packets[1..]);
      } else {
        ShownStep(track, clock, p, Full(more));
        TagsAreTold(Next(track, AsMessage(p)), clock + Time(p), packets[1..]);
      }
    }
  }

  /** The leading packets as the messages that the parser looks for. */
  function AsLead(lead: seq<Packet>): Lead
    requires Opening(lead)
  {
    Lead(Messages(lead), Choices(lead))
  }

  lemma {:induction false} OpeningIsLead(lead: seq<Packet>)
    requires Opening(lead)
    ensures AsLead(lead).Formed() && AsLead(lead).Bytes() == OpeningWritten(lead)
  {
    hide PrintHeader, Head;
    TypesKept(0);
    HeadIsPrinted(lead[0]);
    HeadIsPrinted(lead[1]);
    HeadIsPrinted(lead[2]);
  }

  lemma ParseOnePacket(pack: PackHeader, p: Packet, kinds: set<Byte>, tail: seq<Byte>, beyond: Memory)
    requires Formed(p) && p.fmt < 2
    ensures ParseOne(pack, InOnePiece(p) + tail, kinds, beyond)
      == if PackTypeOf(p.code) in kinds then Got(AsMessage(p), tail, |InOnePiece(p)|) else Wrong(p.body + tail)
  {
    hide PackTypeOf, ParseHeader, PrintHeader, Head, BE24;
    HeadIsPrinted(p);
    FullHeader(pack, AsMessage(p), AsChoice(p), tail);
    FrontAndRest(p.body, tail);
  }

  lemma KindsAre(code: Byte)
    ensures PackTypeOf(code) in SCRIPT <==> code == 18
    ensures PackTypeOf(code) in MEDIA <==> AudioOrVideo(code)
  {
    TypesKept(code);
  }

  /** The leading round on the bytes of three packets. */
  function RoundOn(s: State, lead: seq<Packet>, tail: seq<Byte>, locals: Locals): Round
    requires s.track.Valid() && s.leading && Three(lead)
  {
    LeadingRound(s, OpeningWritten(lead) + tail, locals)
  }

  lemma {:induction false} FirstIsWrong(s: State, lead: seq<Packet>, tail: seq<Byte>, locals: Locals)
    requires s.track.Valid() && s.leading && Three(lead) && |OpeningWritten(lead) + tail| >= 1000
    requires lead[0].code != 18
    ensures RoundOn(s, lead, tail, locals)
      == Round(-1, s, lead[0].body + (InOnePiece(lead[1]) + (InOnePiece(lead[2]) + tail)), [])
  {
    var x, y, z := InOnePiece(lead[0]), InOnePiece(lead[1]), InOnePiece(lead[2]);
    KindsAre(lead[0].code);
    hide PackTypeOf, InOnePiece, ParseOne, ReadsPast, LeadingRound;
    RegroupLead(x, y, z, tail);
    ParseOnePacket(locals.script, lead[0], SCRIPT, y + (z + tail), locals.beyond);
    var r := Wrong(lead[0].body + (y + (z + tail)));
    LeadingRoundIs(s, x + (y + (z + tail)), locals, r, r, r);
  }

  lemma {:induction false} SecondIsWrong(s: State, lead: seq<Packet>, tail: seq<Byte>, locals: Locals)
    requires s.track.Valid() && s.leading && Three(lead) && |OpeningWritten(lead) + tail| >= 1000
    requires lead[0].code == 18 && !AudioOrVideo(lead[1].code)
    ensures RoundOn(s, lead, tail, locals)
      == Round(-1, WithScript(s, AsMessage(lead[0])), lead[1].body + (InOnePiece(lead[2]) + tail), [])
  {
    var x, y, z := InOnePiece(lead[0]), InOnePiece(lead[1]), InOnePiece(lead[2]);
    KindsAre(lead[0].code);
    KindsAre(lead[1].code);
    hide PackTypeOf, InOnePiece, ParseOne, ReadsPast, LeadingRound, AsMessage, WithScript;
    RegroupLead(x, y, z, tail);
    ParseOnePacket(locals.script, lead[0], SCRIPT, y + (z + tail), locals.beyond);
    ParseOnePacket(locals.first, lead[1], MEDIA, z + tail, locals.beyond);
    var r, r1 := Got(AsMessage(lead[0]), y + (z + tail), |x|), Wrong(lead[1].body + (z + tail));
    LeadingRoundIs(s, x + (y + (z + tail)), locals, r, r1, r1);
  }

  lemma {:induction false} ThirdDecides(s: State, lead: seq<Packet>, tail: seq<Byte>, locals: Locals)
    requires s.track.Valid() && s.leading && Three(lead) && |OpeningWritten(lead) + tail| >= 1000
    requires lead[0].code == 18 && AudioOrVideo(lead[1].code)
    ensures RoundOn(s, lead, tail, locals)
      == if AudioOrVideo(lead[2].code) then
           var s' := WithHeaders(s, AsMessage(lead[0]), AsMessage(lead[1]), AsMessage(lead[2]));
           Round(|OpeningWritten(lead)|, s', tail, [])
         else Round(-1, WithScript(s, AsMessage(lead[0])), lead[2].body + tail, [])
  {
    var x, y, z := InOnePiece(lead[0]), InOnePiece(lead[1]), InOnePiece(lead[2]);
    KindsAre(lead[0].code);
    KindsAre(lead[1].code);
    KindsAre(lead[2].code);
    hide PackTypeOf, InOnePiece, ParseOne, ReadsPast, LeadingRound, AsMessage, WithScript, WithHeaders;
    RegroupLead(x, y, z, tail);
    ParseOnePacket(locals.script, lead[0], SCRIPT, y + (z + tail), locals.beyond);
    ParseOnePacket(locals.first, lead[1], MEDIA, z + tail, locals.beyond);
    ParseOnePacket(locals.second, lead[2], MEDIA, tail, locals.beyond);
    var r, r1 := Got(AsMessage(lead[0]), y + (z + tail), |x|), Got(AsMessage(lead[1]), z + tail, |y|);
    var r2 := if AudioOrVideo(lead[2].code) then Got(AsMessage(lead[2]), tail, |z|) else Wrong(lead[2].body + tail);
    LeadingRoundIs(s, x + (y + (z + tail)), locals, r, r1, r2);
  }

  /** Three packets are taken as the leading ones exactly by their types. Otherwise the call reports an
      error, what it read up to the header of the first wrong one is gone, and the header tag of the script
      is there already unless that is the wrong one. */
  lemma {:induction false} TakenIff(s: State, lead: seq<Packet>, tail: seq<Byte>, locals: Locals)
    requires s.track.Valid() && s.leading && Three(lead) && |OpeningWritten(lead) + tail| >= 1000
    ensures var r := RoundOn(s, lead, tail, locals);
      if Opening(lead) then r.parsed == |OpeningWritten(lead)| && !r.state.leading && r.rest == tail && r.tags == []
      else if lead[0].code != 18 then
        r == Round(-1, s, lead[0].body + (InOnePiece(lead[1]) + (InOnePiece(lead[2]) + tail)), [])
      else if lead[1].code != 8 && lead[1].code != 9 then
        r == Round(-1, WithScript(s, AsMessage(lead[0])), lead[1].body + (InOnePiece(lead[2]) + tail), [])
      else r == Round(-1, WithScript(s, AsMessage(lead[0])), lead[2].body + tail, [])
  {
    hide RoundOn, Formed, InOnePiece, AsMessage, WithScript, OpeningWritten;
    if lead[0].code != 18 {
      FirstIsWrong(s, lead, tail, locals);
    } else if !AudioOrVideo(lead[1].code) {
      SecondIsWrong(s, lead, tail, locals);
    } else {
      ThirdDecides(s, lead, tail, locals);
    }
  }

  /** A call that refuses the leading messages returns an error: nothing counts as parsed, no tag is handed
      over, and the next call looks for leading messages again in what is left. */
  lemma {:induction false} RefusedCall(s: State, lead: seq<Packet>, tail: seq<Byte>, locals: Locals)
    requires s.Valid() && s.leading && Three(lead) && |OpeningWritten(lead) + tail| >= 1000 && !Opening(lead)
    ensures var buf, r := OpeningWritten(lead) + tail, RoundOn(s, lead, tail, locals);
      && Publisher.Call(s, buf, locals) == Result(false, 0, r.state, r.rest, [])
      && r.state.leading && r.state.parsed == s.parsed && r.state.core == s.core && |r.rest| < |buf|
  {
    hide OpeningWritten, Formed, ParseLeading;
    TakenIff(s, lead, tail, locals);
    LeadingRoundKeeps(s, OpeningWritten(lead) + tail, locals);
  }

  /** A manager as constructed: blank header tags, clock 0, nothing handed over. */
  function AtFirst(garbage: PackHeader): State {
    State(true, Core(garbage, [], false, 0), Track(0, 0), Headers(Blank(), Blank(), Blank()), 0)
  }

  lemma BlankFields()
    ensures Blank().PreviousTagSize() == 0 && Blank().header[11..] == [0, 0, 0, 0]
  {
  }

  /** A header tag as it is shown, when its PreviousTagSize is `previous`. */
  lemma ShownHeader(t: Tag, p: Packet, clock: nat, previous: nat)
    requires Formed(p) && t.PreviousTagSize() == 0 && t.header[11..] == [0, 0, 0, 0] && previous < TWO_TO_32
    ensures var e := EncodeInto(t, AsMessage(p), (clock + Time(p)) % TWO_TO_32);
      && e.PreviousTagSize() == 0 && e.CurrentTagSize() == 11 + |p.body|
      && AsPlayed(e.WithPrevious(previous))
        == Played(previous, PackTypeOf(p.code), |p.body|, (clock + Time(p)) % TWO_TO_24, 0, p.body)
      && AsPlayed(e) == Played(0, PackTypeOf(p.code), |p.body|, (clock + Time(p)) % TWO_TO_24, 0, p.body)
  {
    var m, now := AsMessage(p), (clock + Time(p)) % TWO_TO_32;
    var e := EncodeInto(t, m, now);
    U24OfBE24(|p.body|);
    EncodedFields(t, m, now);
    LowClock(clock + Time(p));
    WithPreviousFields(e, previous);
    ZeroIsShown(e);
    assert e.WithPrevious(previous).header[11..] == e.WithPrevious(previous).header[4..][7..] == e.header[4..][7..];
    ZeroIsShown(e.WithPrevious(previous));
  }

  lemma {:induction false} ToldThree(lead: seq<Packet>, t0: nat, t1: nat, t2: nat)
    requires |lead| == 3 && t0 == Time(lead[0]) && t1 == t0 + Time(lead[1]) && t2 == t1 + Time(lead[2])
    ensures Told(0, 0, lead, true) == [
      Played(0, lead[0].code, |lead[0].body|, t0 % 0x100_0000, 0, lead[0].body),
      Played(11 + |lead[0].body|, lead[1].code, |lead[1].body|, t1 % 0x100_0000, 0, lead[1].body),
      Played(11 + |lead[1].body|, lead[2].code, |lead[2].body|, t2 % 0x100_0000, 0, lead[2].body)]
  {
    hide Time;
    var two, one := lead[1..], lead[2..];
    assert two[0] == lead[1] && one[0] == lead[2] && two[1..] == one && one[1..] == [];
    assert Told(t2, 11 + |lead[2].body|, [], true) == [];
    assert Told(t1, 11 + |lead[1].body|, one, true)
        == [Played(11 + |lead[1].body|, lead[2].code, |lead[2].body|, t2 % 0x100_0000, 0, lead[2].body)];
  }

  /** The header tags that three messages leave, with the clock behind each of them. */
  lemma LedParts(s: State, lead: Lead, c0: nat, c1: nat, c2: nat)
    requires s.track.Valid() && lead.Formed()
    requires c0 == Tick(s.track.clock, lead.messages[0]) && c1 == Tick(c0, lead.messages[1])
    requires c2 == Tick(c1, lead.messages[2])
    ensures var m, h, l := lead.messages, s.headers, Led(s, lead);
      && l.headers.script == EncodeInto(h.script, m[0], c0)
      && l.headers.first == EncodeInto(h.first, m[1], c1)
      && l.headers.second == EncodeInto(h.second, m[2], c2)
      && l.track == Track(c2, s.track.previous) && l.core == s.core
  {
    hide Leads, EncodeInto, Tick;
  }

  lemma LinkedTags(h: Headers)
    ensures AllPlayed(h.Linked().Tags()) ==
      [AsPlayed(h.script), AsPlayed(h.first.WithPrevious(h.script.CurrentTagSize())),
       AsPlayed(h.second.WithPrevious(h.first.CurrentTagSize()))]
  {
    hide AsPlayed, Tag.WithPrevious, Tag.CurrentTagSize;
  }

  lemma ThreeShown(a: Packet, b: Packet, c: Packet, t0: nat, t1: nat, t2: nat, h: Headers)
    requires Formed(a) && Formed(b) && Formed(c)
    requires PackTypeOf(a.code) == a.code && PackTypeOf(b.code) == b.code && PackTypeOf(c.code) == c.code
    requires t0 == Time(a) && t1 == t0 + Time(b) && t2 == t1 + Time(c)
    requires h.script == EncodeInto(Blank(), AsMessage(a), t0 % TWO_TO_32)
    requires h.first == EncodeInto(Blank(), AsMessage(b), t1 % TWO_TO_32)
    requires h.second == EncodeInto(Blank(), AsMessage(c), t2 % TWO_TO_32)
    ensures h.second.CurrentTagSize() == 11 + |c.body|
    ensures AllPlayed(h.Linked().Tags()) == [
      Played(0, a.code, |a.body|, t0 % TWO_TO_24, 0, a.body),
      Played(11 + |a.body|, b.code, |b.body|, t1 % TWO_TO_24, 0, b.body),
      Played(11 + |b.body|, c.code, |c.body|, t2 % TWO_TO_24, 0, c.body)]
  {
    hide AsPlayed, PackTypeOf, EncodeInto, BE24, Time, Blank, Tag.WithPrevious, Tag.CurrentTagSize, AsMessage;
    BlankFields();
    ShownHeader(Blank(), a, 0, 0);
    ShownHeader(Blank(), b, t0, 11 + |a.body|);
    ShownHeader(Blank(), c, t1, 11 + |b.body|);
    LinkedTags(h);
  }

  lemma {:induction false} LedOfPackets(garbage: PackHeader, lead: seq<Packet>, t0: nat, t1: nat, t2: nat)
    requires Opening(lead) && AsLead(lead).Formed()
    requires t0 == Time(lead[0]) && t1 == t0 + Time(lead[1]) && t2 == t1 + Time(lead[2])
    ensures var l := Led(AtFirst(garbage), AsLead(lead));
      && l.headers.script == EncodeInto(Blank(), AsMessage(lead[0]), t0 % TWO_TO_32)
      && l.headers.first == EncodeInto(Blank(), AsMessage(lead[1]), t1 % TWO_TO_32)
      && l.headers.second == EncodeInto(Blank(), AsMessage(lead[2]), t2 % TWO_TO_32)
      && l.track == Track(t2 % TWO_TO_32, 0) && l.core == AtFirst(garbage).core
  {
    hide Lead.Formed;
    assert Formed(lead[0]) && Formed(lead[1]) && Formed(lead[2]);
    assert AsLead(lead).messages == [AsMessage(lead[0]), AsMessage(lead[1]), AsMessage(lead[2])];
    hide EncodeInto, Tick, Time, Led, AsMessage, AsLead, Blank, Opening, Formed;
    TickIs(0, lead[0]);
    TickIs(t0, lead[1]);
    TickIs(t1, lead[2]);
    LedParts(AtFirst(garbage), AsLead(lead), t0 % TWO_TO_32, t1 % TWO_TO_32, t2 % TWO_TO_32);
  }

  /** The header tags that the server makes are those that are to be shown first. */
  lemma {:induction false} HeadersAreTold(garbage: PackHeader, lead: seq<Packet>)
    requires Opening(lead)
    ensures AsLead(lead).Formed()
    ensures var l := Led(AtFirst(garbage), AsLead(lead));
      && AllPlayed(l.headers.Linked().Tags()) == Told(0, 0, lead, true)
      && l.headers.second.CurrentTagSize() == 11 + |lead[2].body|
      && l.track == Track((Time(lead[0]) + Time(lead[1]) + Time(lead[2])) % TWO_TO_32, 0)
      && l.core == AtFirst(garbage).core
  {
    OpeningIsLead(lead);
    TypesKept(0);
    var a, b, c := lead[0], lead[1], lead[2];
    var t0, t1, t2 := Time(a), Time(a) + Time(b), Time(a) + Time(b) + Time(c);
    assert Formed(a) && Formed(b) && Formed(c);
    assert PackTypeOf(a.code) == a.code && PackTypeOf(b.code) == b.code && PackTypeOf(c.code) == c.code;
    hide PackTypeOf, EncodeInto, Time, Led, Lead.Formed, AsLead, Told, AsMessage, AsPlayed, Headers.Linked;
    hide Opening, Formed, AtFirst, Blank, AllPlayed;
    LedOfPackets(garbage, lead, t0, t1, t2);
    ThreeShown(a, b, c, t0, t1, t2, Led(AtFirst(garbage), AsLead(lead)).headers);
    ToldThree(lead, t0, t1, t2);
  }

  /** What a player is to show of the three leading packets and of the stream behind them. */
  function Live(lead: seq<Packet>, packets: seq<Packet>): seq<Played>
    requires |lead| == 3
  {
    Told(Time(lead[0]) + Time(lead[1]) + Time(lead[2]), 0, packets, false)
  }

  /** A publisher's stream from its first packet on: the tags it amounts to are exactly its audio and video
      packets, and every message has the size it announces. */
  lemma {:induction false} StreamIsTold(garbage: PackHeader, lead: seq<Packet>, packets: seq<Packet>)
    requires Opening(lead) && |OpeningWritten(lead)| <= 1000 && Encoded(packets)
    ensures AsLead(lead).Valid() && Ready(AtFirst(garbage))
    ensures var stream := OpeningWritten(lead) + Written(packets);
      && AsLead(lead).Bytes() <= stream
      && Dechunker.Future(AtFirst(garbage).core, stream[|AsLead(lead).Bytes()|..]).contiguous
      && AllPlayed(TagsOf(AtFirst(garbage), AsLead(lead), stream)) == Live(lead, packets)
  {
    hide Lead.Formed, Lead.Bytes, Led, Tags, Print, Dechunker.Future, Formed;
    var s := AtFirst(garbage);
    OpeningIsLead(lead);
    WrittenIsPrinted(garbage, packets);
    PrintedStream(s, AsLead(lead), Messages(packets), Choices(packets));
    HeadersAreTold(garbage, lead);
    TagsAreTold(Led(s, AsLead(lead)).track, Time(lead[0]) + Time(lead[1]) + Time(lead[2]), packets);
  }
}
