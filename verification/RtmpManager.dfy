/**
 utils/codec/RtmpManager: the class that drives the handshake and the parsing of one publisher's
 connection, proved round by round to be the state machines of Handshake and Publisher.
 */
module RtmpManagers {
  import opened Bytes
  import opened Buffers
  import opened FlvCodec
  import opened FlvManagers
  import opened RtmpCodec
  import opened Dechunker
  import opened Timeline
  import opened Format
  import opened Viewers
  import FanOut
  import Publisher
  import Handshake

  datatype ParseStatus = PARSE_FIRST_HEADER | PARSE_RTMP_HEADER | PARSE_RTMP_BODY

  /** The same with its error branch, before it is known to be dead. */
  method ParsePackHeader(buffer: Buffer, pack: RtmpPack) returns (parsed: int)
    requires buffer.Valid() && pack.Valid()
    modifies pack
    ensures pack.Valid()
    ensures parsed == if DecodeLength(buffer.Contents()) < 0 then -1 else DecodeLength(buffer.Contents())
    ensures pack.Header() == ParseHeader(old(pack.Header()), buffer.Contents()).header
  {
    hide DecodeLength;
    parsed := pack.DecodeHeader(buffer.Contents());
    if parsed < 0 {
      return -1;
    } else if parsed == 0 {
      return 0;
    }
  }

  /** RtmpManager::ParseHeader: does not move the read index. */
  method ParseHeaderOf(buffer: Buffer, pack: RtmpPack) returns (parsed: int)
    requires buffer.Valid() && pack.Valid()
    modifies pack
    ensures pack.Valid()
    ensures parsed == ParseHeader(old(pack.Header()), buffer.Contents()).length
    ensures pack.Header() == ParseHeader(old(pack.Header()), buffer.Contents()).header
  {
    parsed := ParsePackHeader(buffer, pack);
    DecodeNeverFails(old(pack.Header()), buffer.Contents());
  }

  /** Moves `n` unread bytes, or all there are, from the buffer to the end of the pack's body. */
  method MoveToBody(buffer: Buffer, pack: RtmpPack, n: nat)
    requires buffer.Valid() && pack.Valid() && buffer != pack.buffer_ && n <= |buffer.Contents()|
    modifies buffer, pack.buffer_
    ensures buffer.Valid() && pack.Valid() && buffer.Capacity() == old(buffer.Capacity())
    ensures pack.Body() == old(pack.Body()) + old(buffer.Contents())[..n]
    ensures buffer.Contents() == old(buffer.Contents())[n..]
  {
    pack.AppendData(buffer.Contents()[..n]);
    buffer.AddReadIndex(n);
  }

  /** ParseHeaderAndBody: a whole message, or nothing, or the error of the header. */
  method ParseHeaderAndBody(buffer: Buffer, pack: RtmpPack) returns (parsed: int)
    requires buffer.Valid() && pack.Valid() && buffer != pack.buffer_ && pack.Body() == []
    modifies buffer, pack, pack.buffer_
    ensures buffer.Valid() && pack.Valid() && buffer.Capacity() == old(buffer.Capacity())
    ensures var m := Handshake.ParseMessage(old(pack.Header()), old(buffer.Contents()));
      && parsed == m.consumed && pack.Header() == m.header && pack.Body() == m.body
      && buffer.Contents() == m.rest && (parsed <= 0 ==> m.rest == old(buffer.Contents()) && m.body == [])
  {
    hide DecodeLength;
    var parse := ParsePackHeader(buffer, pack);
    if parse > 0 {
      var need_length := pack.GetBodyDataSize() + parse;
      if need_length > buffer.ReadableLength() {
        return 0;
      }
      ghost var buf := buffer.Contents();
      buffer.AddReadIndex(parse);
      // ParseBody with chunk_over set and no counter
      var remain := pack.GetBodyRemainSize();
      MoveToBody(buffer, pack, remain);
      SliceTwice(buf, parse, remain);
      return need_length;
    } else {
      return parse;
    }
  }

  /** ParseScriptPack, and one round of ParseVideoAudio: a message of one of the given types. The copy does
      not ask how much was received; the read index stops where the received bytes end. */
  method ParseTypedPack(buffer: Buffer, pack: RtmpPack, kinds: set<Byte>, beyond: Memory) returns (parsed: int)
    requires buffer.Valid() && pack.Valid() && buffer != pack.buffer_ && pack.Body() == []
    modifies buffer, pack, pack.buffer_
    ensures buffer.Valid() && pack.Valid() && buffer.Capacity() == old(buffer.Capacity())
    ensures var r := Publisher.ParseOne(old(pack.Header()), old(buffer.Contents()), kinds, beyond);
      && buffer.Contents() == r.rest
      && (r.Wrong? ==> parsed == -1)
      && (r.Got? ==> parsed == r.taken && Message(pack.Header(), pack.Body()) == r.message)
  {
    var result := 0;
    parsed := ParseHeaderOf(buffer, pack);
    buffer.AddReadIndex(parsed);
    result := result + parsed;
    if parsed <= 0 {
      return -1;
    }
    if pack.pack_type_ !in kinds {
      return -1;
    }
    var data_size := pack.GetBodyDataSize();
    pack.AppendData(Publisher.ReadFrom(buffer.Contents(), beyond, data_size));
    buffer.AddReadIndex(data_size);
    result := result + data_size;
    return result;
  }

  /** EncodeHeaderAndSwapBuffer, in terms of the message in the pack. */
  method EncodePack(codec: Codec, pack: RtmpPack, tag: FlvTag)
    requires codec.Valid() && pack.Valid() && tag.Valid() && pack.buffer_ != tag.body_
    modifies codec, pack.buffer_, tag`header_, tag.body_
    ensures codec.Valid() && pack.Valid() && tag.Valid()
    ensures pack.Body() == old(tag.Value()).body
    ensures var m := Message(old(pack.Header()), old(pack.Body()));
      && codec.timestamp_ == Tick(old(codec.timestamp_), m)
      && tag.Value() == Publisher.EncodeInto(old(tag.Value()), m, codec.timestamp_)
  {
    codec.EncodeHeaderAndSwapBuffer(pack, tag);
  }

  method EncodeScript(flv: FlvManager, codec: Codec, pack: RtmpPack, ghost s: Publisher.State)
    requires flv.Valid() && codec.Valid() && pack.Valid() && !flv.Uses(pack.buffer_)
    requires s.track.Valid() && Publisher.Shows(s, codec.timestamp_, flv.Value())
    modifies codec, pack.buffer_, flv.script_tag_`header_, flv.script_tag_.body_
    ensures flv.Valid() && codec.Valid() && pack.Valid()
    ensures var m := Message(old(pack.Header()), old(pack.Body()));
      Publisher.Shows(Publisher.WithScript(s, m), codec.timestamp_, flv.Value())
  {
    EncodePack(codec, pack, flv.script_tag_);
  }

  method EncodeFirst(flv: FlvManager, codec: Codec, pack: RtmpPack, ghost s: Publisher.State)
    requires flv.Valid() && codec.Valid() && pack.Valid() && !flv.Uses(pack.buffer_)
    requires s.track.Valid() && Publisher.Shows(s, codec.timestamp_, flv.Value())
    modifies codec, pack.buffer_, flv.first_tag_`header_, flv.first_tag_.body_
    ensures flv.Valid() && codec.Valid() && pack.Valid()
    ensures var m := Message(old(pack.Header()), old(pack.Body()));
      Publisher.Shows(Publisher.WithFirst(s, m), codec.timestamp_, flv.Value())
  {
    EncodePack(codec, pack, flv.first_tag_);
  }

  method EncodeSecond(flv: FlvManager, codec: Codec, pack: RtmpPack, ghost s: Publisher.State)
    requires flv.Valid() && codec.Valid() && pack.Valid() && !flv.Uses(pack.buffer_)
    requires s.track.Valid() && Publisher.Shows(s, codec.timestamp_, flv.Value())
    modifies codec, pack.buffer_, flv.second_tag_`header_, flv.second_tag_.body_
    ensures flv.Valid() && codec.Valid() && pack.Valid()
    ensures var m := Message(old(pack.Header()), old(pack.Body()));
      Publisher.Shows(Publisher.WithSecond(s, m), codec.timestamp_, flv.Value())
  {
    EncodePack(codec, pack, flv.second_tag_);
  }

  /** ParseVideoAudio into the two packs on ParseFirstHeader's stack. */
  method ParseVideoAudio(buffer: Buffer, first: RtmpPack, second: RtmpPack, beyond: Memory) returns (parsed: int)
    requires buffer.Valid() && first.Valid() && second.Valid()
    requires first != second && first.buffer_ != second.buffer_ && buffer != first.buffer_ && buffer != second.buffer_
    requires first.Body() == [] && second.Body() == []
    modifies buffer, first, first.buffer_, second, second.buffer_
    ensures buffer.Valid() && buffer.Capacity() == old(buffer.Capacity())
    ensures first.Valid() && second.Valid()
    ensures var r := Publisher.ParseOne(old(first.Header()), old(buffer.Contents()), Publisher.MEDIA, beyond);
      if r.Wrong? then parsed == -1 && buffer.Contents() == r.rest
      else
        var q := Publisher.ParseOne(old(second.Header()), r.rest, Publisher.MEDIA, beyond);
        && buffer.Contents() == q.rest
        && (q.Wrong? ==> parsed == -1)
        && (q.Got? ==> parsed == r.taken + q.taken)
        && (q.Got? ==> Message(first.Header(), first.Body()) == r.message)
        && (q.Got? ==> Message(second.Header(), second.Body()) == q.message)
  {
    var result := 0;
    parsed := ParseTypedPack(buffer, first, Publisher.MEDIA, beyond);
    if parsed <= 0 {
      return -1;
    }
    result := result + parsed;
    parsed := ParseTypedPack(buffer, second, Publisher.MEDIA, beyond);
    if parsed <= 0 {
      return -1;
    }
    parsed := result + parsed;
  }

  /** The first half of ParseFirstHeader: the script message becomes the script tag. */
  method TakeScript(buffer: Buffer, flv: FlvManager, codec: Codec, script_pack: RtmpPack, beyond: Memory,
                    ghost s: Publisher.State, ghost r: Publisher.LeadingMessage)
    returns (parsed: int)
    requires buffer.Valid() && flv.Valid() && codec.Valid() && script_pack.Valid() && script_pack.Body() == []
    requires buffer != script_pack.buffer_ && !flv.Uses(buffer) && !flv.Uses(script_pack.buffer_)
    requires s.track.Valid() && Publisher.Shows(s, codec.timestamp_, flv.Value())
    requires r == Publisher.ParseOne(script_pack.Header(), buffer.Contents(), Publisher.SCRIPT, beyond)
    modifies buffer, codec, script_pack, script_pack.buffer_, flv.script_tag_`header_, flv.script_tag_.body_
    ensures buffer.Valid() && flv.Valid() && codec.Valid() && buffer.Capacity() == old(buffer.Capacity())
    ensures buffer.Contents() == r.rest
    ensures parsed == if r.Wrong? then -1 else r.taken
    ensures Publisher.Shows(if r.Wrong? then s else Publisher.WithScript(s, r.message), codec.timestamp_, flv.Value())
  {
    parsed := ParseTypedPack(buffer, script_pack, Publisher.SCRIPT, beyond);
    if parsed < 0 {
      return -1;
    }
    EncodeScript(flv, codec, script_pack, s);
  }

  /** The second half: the first two media messages become the other header tags, both or none. */
  method TakeVideoAudio(buffer: Buffer, flv: FlvManager, codec: Codec, first: RtmpPack, second: RtmpPack,
                        beyond: Memory,
                        ghost s: Publisher.State, ghost r: Publisher.LeadingMessage, ghost q: Publisher.LeadingMessage)
    returns (parsed: int)
    requires buffer.Valid() && flv.Valid() && codec.Valid() && first.Valid() && second.Valid()
    requires first != second && first.buffer_ != second.buffer_ && buffer != first.buffer_ && buffer != second.buffer_
    requires first.Body() == [] && second.Body() == []
    requires !flv.Uses(buffer) && !flv.Uses(first.buffer_) && !flv.Uses(second.buffer_)
    requires s.track.Valid() && Publisher.Shows(s, codec.timestamp_, flv.Value())
    requires r == Publisher.ParseOne(first.Header(), buffer.Contents(), Publisher.MEDIA, beyond)
    requires q == if r.Wrong? then r else Publisher.ParseOne(second.Header(), r.rest, Publisher.MEDIA, beyond)
    modifies buffer, codec, first, first.buffer_, second, second.buffer_
    modifies flv.first_tag_`header_, flv.first_tag_.body_, flv.second_tag_`header_, flv.second_tag_.body_
    ensures buffer.Valid() && flv.Valid() && codec.Valid() && buffer.Capacity() == old(buffer.Capacity())
    ensures buffer.Contents() == q.rest
    ensures parsed == if q.Wrong? then -1 else r.taken + q.taken
    ensures Publisher.Shows(
      if q.Wrong? then s else Publisher.WithSecond(Publisher.WithFirst(s, r.message), q.message),
      codec.timestamp_, flv.Value())
  {
    parsed := ParseVideoAudio(buffer, first, second, beyond);
    if parsed < 0 {
      return -1;
    }
    EncodeFirst(flv, codec, first, s);
    EncodeSecond(flv, codec, second, Publisher.WithFirst(s, r.message));
  }

  /** ParseFirstHeader behind its length check, on its three packs. */
  method TakeLeading(buffer: Buffer, flv: FlvManager, codec: Codec, script_pack: RtmpPack, first: RtmpPack,
                     second: RtmpPack,
                     beyond: Memory, ghost s: Publisher.State, ghost r: Publisher.LeadingMessage,
                     ghost r1: Publisher.LeadingMessage, ghost r2: Publisher.LeadingMessage)
    returns (parsed: int)
    requires buffer.Valid() && flv.Valid() && codec.Valid() && script_pack.Valid() && first.Valid() && second.Valid()
    requires script_pack.Body() == first.Body() == second.Body() == []
    requires script_pack != first && script_pack != second && first != second
    requires buffer != script_pack.buffer_ && buffer != first.buffer_ && buffer != second.buffer_
    requires script_pack.buffer_ != first.buffer_ && script_pack.buffer_ != second.buffer_
        && first.buffer_ != second.buffer_
    requires !flv.Uses(buffer) && !flv.Uses(script_pack.buffer_) && !flv.Uses(first.buffer_)
        && !flv.Uses(second.buffer_)
    requires s.track.Valid() && s.leading && Publisher.Shows(s, codec.timestamp_, flv.Value())
    requires r == Publisher.ParseOne(script_pack.Header(), buffer.Contents(), Publisher.SCRIPT, beyond)
    requires r1 == if r.Got? then Publisher.ParseOne(first.Header(), r.rest, Publisher.MEDIA, beyond) else r
    requires r2 == if r1.Got? then Publisher.ParseOne(second.Header(), r1.rest, Publisher.MEDIA, beyond) else r1
    modifies buffer, codec, script_pack, script_pack.buffer_, first, first.buffer_, second, second.buffer_
    modifies flv.script_tag_`header_, flv.script_tag_.body_
    modifies flv.first_tag_`header_, flv.first_tag_.body_, flv.second_tag_`header_, flv.second_tag_.body_
    ensures buffer.Valid() && flv.Valid() && codec.Valid() && buffer.Capacity() == old(buffer.Capacity())
    ensures var round := Publisher.RoundOf(s, r, r1, r2);
      && parsed == round.parsed && buffer.Contents() == round.rest
      && Publisher.Shows(round.state, codec.timestamp_, flv.Value())
  {
    parsed := TakeScript(buffer, flv, codec, script_pack, beyond, s, r);
    if parsed < 0 {
      return -1;
    }
    var parsed_video_audio := TakeVideoAudio(buffer, flv, codec, first, second, beyond,
        Publisher.WithScript(s, r.message), r1, r2);
    if parsed_video_audio < 0 {
      return -1;
    }
    return parsed + parsed_video_audio;
  }

  /** ParseFirstHeader: the three leading messages in one go, or none; the ghosts are what they parse to. */
  method ParseFirstHeader(buffer: Buffer, flv: FlvManager, codec: Codec, locals: Publisher.Locals,
                          ghost s: Publisher.State,
                          ghost r: Publisher.LeadingMessage, ghost r1: Publisher.LeadingMessage,
                          ghost r2: Publisher.LeadingMessage)
    returns (parsed: int)
    requires buffer.Valid() && flv.Valid() && codec.Valid() && !flv.Uses(buffer)
    requires s.track.Valid() && s.leading && Publisher.Shows(s, codec.timestamp_, flv.Value())
    requires r == Publisher.ParseOne(locals.script, buffer.Contents(), Publisher.SCRIPT, locals.beyond)
    requires r1 == if r.Got? then Publisher.ParseOne(locals.first, r.rest, Publisher.MEDIA, locals.beyond) else r
    requires r2 == if r1.Got? then Publisher.ParseOne(locals.second, r1.rest, Publisher.MEDIA, locals.beyond) else r1
    modifies buffer, codec, flv.script_tag_`header_, flv.script_tag_.body_
    modifies flv.first_tag_`header_, flv.first_tag_.body_, flv.second_tag_`header_, flv.second_tag_.body_
    ensures buffer.Valid() && flv.Valid() && codec.Valid() && buffer.Capacity() == old(buffer.Capacity())
    ensures var buf := old(buffer.Contents());
      var round := if |buf| < Publisher.RTMP_START_PARSE_LENGTH then Publisher.Round(0, s, buf, [])
                   else Publisher.RoundOf(s, r, r1, r2);
      && parsed == round.parsed && buffer.Contents() == round.rest
      && Publisher.Shows(round.state, codec.timestamp_, flv.Value())
  {
    if buffer.ReadableLength() < Publisher.RTMP_START_PARSE_LENGTH {
      return 0;
    }
    var script_pack := new RtmpPack(locals.script);
    var first := new RtmpPack(locals.first);
    var second := new RtmpPack(locals.second);
    parsed := TakeLeading(buffer, flv, codec, script_pack, first, second, locals.beyond, s, r, r1, r2);
  }

  /** ParseFirstHeader as a round of the abstract state. */
  method ParseFirstHeaderRound(buffer: Buffer, flv: FlvManager, codec: Codec, locals: Publisher.Locals,
                               ghost s: Publisher.State)
    returns (parsed: int)
    requires buffer.Valid() && flv.Valid() && codec.Valid() && !flv.Uses(buffer)
    requires s.track.Valid() && s.leading && Publisher.Shows(s, codec.timestamp_, flv.Value())
    modifies buffer, codec, flv.script_tag_`header_, flv.script_tag_.body_
    modifies flv.first_tag_`header_, flv.first_tag_.body_, flv.second_tag_`header_, flv.second_tag_.body_
    ensures buffer.Valid() && flv.Valid() && codec.Valid() && buffer.Capacity() == old(buffer.Capacity())
    ensures var r := Publisher.LeadingRound(s, old(buffer.Contents()), locals);
      parsed == r.parsed && buffer.Contents() == r.rest && Publisher.Shows(r.state, codec.timestamp_, flv.Value())
  {
    hide Publisher.ParseOne;
    ghost var buf := buffer.Contents();
    ghost var r := Publisher.ParseOne(locals.script, buf, Publisher.SCRIPT, locals.beyond);
    ghost var r1 := if r.Got? then Publisher.ParseOne(locals.first, r.rest, Publisher.MEDIA, locals.beyond) else r;
    ghost var r2 := if r1.Got? then Publisher.ParseOne(locals.second, r1.rest, Publisher.MEDIA, locals.beyond) else r1;
    if |buf| >= Publisher.RTMP_START_PARSE_LENGTH {
      Publisher.LeadingRoundIs(s, buf, locals, r, r1, r2);
    }
    parsed := ParseFirstHeader(buffer, flv, codec, locals, s, r, r1, r2);
  }

  /** Both overloads of ParseBody, on a core: completes a message, or takes what there is of the chunk. */
  method ParseBodyOf(buffer: Buffer, pack: RtmpPack, read_chunk_size: nat, ghost c: Core)
    returns (parsed: int, new_chunk_size: nat, status: ParseStatus)
    requires buffer.Valid() && pack.Valid() && buffer != pack.buffer_
    requires c == Core(pack.Header(), pack.Body(), true, read_chunk_size) && read_chunk_size < RTMP_CHUNK_SIZE
    modifies buffer, pack.buffer_
    ensures buffer.Valid() && pack.Valid() && buffer.Capacity() == old(buffer.Capacity())
    ensures var r := ParseBody(c, old(buffer.Contents()));
      && buffer.Contents() == r.rest && new_chunk_size < RTMP_CHUNK_SIZE
      && status != PARSE_FIRST_HEADER
      && r.core == Core(c.header, if r.done == [] then pack.Body() else [], status == PARSE_RTMP_BODY, new_chunk_size)
      && if r.done == [] then parsed == 0
         else parsed == c.header.Size() > 0 && r.done == [Message(c.header, pack.Body())]
  {
    var chunk_over := pack.GetBodyRemainSize() <= RTMP_CHUNK_SIZE && read_chunk_size == 0;
    var readable := buffer.ReadableLength();
    var remain := pack.GetBodyRemainSize();
    new_chunk_size, status := read_chunk_size, PARSE_RTMP_BODY;
    if chunk_over {
      if readable < remain {
        MoveToBody(buffer, pack, readable);
        return 0, new_chunk_size, status;
      } else {
        MoveToBody(buffer, pack, remain);
        status := PARSE_RTMP_HEADER;
        return pack.GetBodyDataSize(), new_chunk_size, status;
      }
    } else {
      var current_chunk_remain := RTMP_CHUNK_SIZE - read_chunk_size;
      if readable < current_chunk_remain {
        MoveToBody(buffer, pack, readable);
        new_chunk_size := read_chunk_size + readable;
      } else {
        MoveToBody(buffer, pack, current_chunk_remain);
        new_chunk_size := 0;
        status := PARSE_RTMP_HEADER;
      }
      return 0, new_chunk_size, status;
    }
  }

  class RtmpManager {
    var parsed_status_: ParseStatus
    var parsed_length_: nat
    const rtmp_codec_: Codec
    const current_rtmp_pack_: RtmpPack
    var read_chunk_size_: nat
    var last_flv_ptr_: FlvTag?
    /** The target of `new_flv_tag_callback_`; it shares the header tags and the last tag with this object. */
    const clients_: ClientConnections

    /** The abstract state, tied to the objects by Valid(). */
    ghost var state: Publisher.State

    ghost predicate Linked()
      reads this`last_flv_ptr_, rtmp_codec_, current_rtmp_pack_, current_rtmp_pack_.buffer_
      reads clients_, clients_.header_buffer_, clients_.last_flv_tag_ptr_
      reads if clients_.last_flv_tag_ptr_ == null then clients_.header_buffer_ else clients_.last_flv_tag_ptr_.body_
      reads clients_.flv_manager_.script_tag_, clients_.flv_manager_.script_tag_.body_
      reads clients_.flv_manager_.first_tag_, clients_.flv_manager_.first_tag_.body_
      reads clients_.flv_manager_.second_tag_, clients_.flv_manager_.second_tag_.body_, clients_.flv_manager_.buffer_
      reads clients_.client_connection_map_.Values
    {
      && clients_.Valid() && current_rtmp_pack_.Valid() && rtmp_codec_.Valid()
      && !clients_.Uses(current_rtmp_pack_.buffer_)
      && last_flv_ptr_ == clients_.last_flv_tag_ptr_
    }

    static function PreviousSize(last: Option<Tag>): nat {
      if last.None? then 0 else last.value.CurrentTagSize()
    }

    /** The objects show the abstract state `s`. */
    ghost predicate Shows(s: Publisher.State)
      requires current_rtmp_pack_.Valid()
      reads this`parsed_status_, this`read_chunk_size_, this`parsed_length_
      reads rtmp_codec_, current_rtmp_pack_, current_rtmp_pack_.buffer_, clients_`room
    {
      && s.leading == (parsed_status_ == PARSE_FIRST_HEADER)
      && s.core == Core(current_rtmp_pack_.Header(), current_rtmp_pack_.Body(),
                        parsed_status_ == PARSE_RTMP_BODY, read_chunk_size_)
      && s.track.clock == rtmp_codec_.timestamp_
      && s.track.previous == PreviousSize(clients_.room.last)
      && s.headers == clients_.room.headers
      && s.parsed == parsed_length_
      && (s.leading ==> clients_.room.last.None?)
    }

    ghost predicate Valid()
      reads this, rtmp_codec_, current_rtmp_pack_, current_rtmp_pack_.buffer_
      reads clients_, clients_.header_buffer_, clients_.last_flv_tag_ptr_
      reads if clients_.last_flv_tag_ptr_ == null then clients_.header_buffer_ else clients_.last_flv_tag_ptr_.body_
      reads clients_.flv_manager_.script_tag_, clients_.flv_manager_.script_tag_.body_
      reads clients_.flv_manager_.first_tag_, clients_.flv_manager_.first_tag_.body_
      reads clients_.flv_manager_.second_tag_, clients_.flv_manager_.second_tag_.body_, clients_.flv_manager_.buffer_
      reads clients_.client_connection_map_.Values
    {
      Linked() && state.Valid() && Shows(state)
    }

    /** A buffer that is none of this manager's. */
    ghost predicate Foreign(buffer: Buffer)
      reads clients_`last_flv_tag_ptr_
    {
      !clients_.Uses(buffer) && buffer != current_rtmp_pack_.buffer_
    }

    constructor (clients: ClientConnections, garbage: PackHeader)
      requires clients.Valid() && clients.room.last.None?
      ensures Valid() && clients_ == clients
      ensures fresh(rtmp_codec_) && fresh(current_rtmp_pack_) && fresh(current_rtmp_pack_.buffer_)
      ensures state == Publisher.State(true, Core(garbage, [], false, 0), Track(0, 0), clients.room.headers, 0)
    {
      assert clients.last_flv_tag_ptr_ == null;
      hide ClientConnections.Valid;
      parsed_status_, parsed_length_, read_chunk_size_ := PARSE_FIRST_HEADER, 0, 0;
      rtmp_codec_ := new Codec();
      current_rtmp_pack_ := new RtmpPack(garbage);
      last_flv_ptr_ := null;
      clients_ := clients;
      state := Publisher.State(true, Core(garbage, [], false, 0), Track(0, 0), clients.room.headers, 0);
    }

    /** Exactly `tags` were published, under the same headers. */
    static predicate Grew(r0: FanOut.Room, r: FanOut.Room, tags: seq<Tag>) {
      FanOut.Fed(r0, r, r0.headers, tags) && r.headers == r0.headers
    }

    /** The tag announces the size of the last one, or 0. */
    method AnnouncePrevious(tag: FlvTag)
      requires clients_.Valid() && last_flv_ptr_ == clients_.last_flv_tag_ptr_
      requires tag.Valid() && clients_.Apart(tag) && tag != last_flv_ptr_
      modifies tag`header_
      ensures clients_.Valid()
      ensures tag.Value() == old(tag.Value()).WithPrevious(PreviousSize(clients_.room.last))
    {
      hide FanOut.Served;
      if last_flv_ptr_ != null {
        var size := last_flv_ptr_.GetCurrentTagSize();
        tag.SetPreviousTagSize(size);
      } else {
        tag.SetPreviousTagSize(0);
      }
    }

    /** `new_flv_tag_callback_`. */
    method HandOver(tag: FlvTag)
      requires clients_.Valid() && tag.Valid() && clients_.Apart(tag)
      modifies this`last_flv_ptr_
      modifies clients_`last_flv_tag_ptr_, clients_`room, clients_.client_connection_map_.Values
      ensures clients_.Valid() && last_flv_ptr_ == clients_.last_flv_tag_ptr_ == tag
      ensures Grew(old(clients_.room), clients_.room, [old(tag.Value())])
          && clients_.room.last == Some(old(tag.Value()))
    {
      hide ClientConnections.Valid, FanOut.Fed;
      FanOut.PublishFeeds(clients_.room, tag.Value());
      last_flv_ptr_ := tag;
      clients_.OnNewFlvTag(tag);
    }

    /** A media tag announces the size of the one before, becomes the last one, and goes to the callback. */
    method ProcessNewFlvTag(tag: FlvTag)
      requires clients_.Valid() && last_flv_ptr_ == clients_.last_flv_tag_ptr_
      requires tag.Valid() && clients_.Apart(tag) && tag != last_flv_ptr_
      modifies this`last_flv_ptr_, tag`header_
      modifies clients_`last_flv_tag_ptr_, clients_`room, clients_.client_connection_map_.Values
      ensures clients_.Valid() && last_flv_ptr_ == clients_.last_flv_tag_ptr_
      ensures last_flv_ptr_ == tag || last_flv_ptr_ == old(last_flv_ptr_)
      ensures var t := old(tag.Value()).WithPrevious(PreviousSize(old(clients_.room).last));
        if old(tag.Value()).Kind() == RTMP_VIDEO || old(tag.Value()).Kind() == RTMP_AUDIO then
          Grew(old(clients_.room), clients_.room, [t]) && clients_.room.last == Some(t)
        else
          Grew(old(clients_.room), clients_.room, []) && clients_.room.last == old(clients_.room).last
    {
      hide FanOut.Served, FanOut.Fed;
      FanOut.FedNone(clients_.room, clients_.room.headers);
      var kind := tag.GetTagType();
      if kind == RTMP_VIDEO || kind == RTMP_AUDIO {
        AnnouncePrevious(tag);
        HandOver(tag);
      }
    }

    /** `std::make_shared<FlvTag>()`, and EncodeHeaderAndSwapBuffer on it. */
    method MakeTag(ghost track: Track, ghost m: Message) returns (tag: FlvTag)
      requires Linked()
      requires track.Valid() && track.clock == rtmp_codec_.timestamp_
      requires m == Message(current_rtmp_pack_.Header(), current_rtmp_pack_.Body())
      modifies rtmp_codec_, current_rtmp_pack_.buffer_
      ensures clients_.Valid() && current_rtmp_pack_.Valid() && rtmp_codec_.Valid()
      ensures fresh(tag) && fresh(tag.body_) && tag.Valid() && clients_.Apart(tag)
      ensures current_rtmp_pack_.Body() == []
      ensures rtmp_codec_.timestamp_ == Next(track, m).clock
      ensures tag.Value().Kind() == m.header.packType && tag.Value().WithPrevious(track.previous) == TagOf(track, m)
    {
      hide FanOut.Served, TagOf;
      tag := new FlvTag();
      EncodePack(rtmp_codec_, current_rtmp_pack_, tag);
      Publisher.EncodedIsTagOf(track, m);
    }

    /** The completed message in the current pack becomes a tag and is handed over. */
    method DeliverTag(ghost track: Track, ghost m: Message)
      requires Linked()
      requires track.Valid() && track.clock == rtmp_codec_.timestamp_
          && track.previous == PreviousSize(clients_.room.last)
      requires m == Message(current_rtmp_pack_.Header(), current_rtmp_pack_.Body())
      modifies this`last_flv_ptr_, rtmp_codec_, current_rtmp_pack_.buffer_
      modifies clients_`last_flv_tag_ptr_, clients_`room, clients_.client_connection_map_.Values
      ensures Linked()
      ensures clients_.last_flv_tag_ptr_ == old(clients_.last_flv_tag_ptr_)
        || (clients_.last_flv_tag_ptr_ != null && fresh(clients_.last_flv_tag_ptr_.body_))
      ensures current_rtmp_pack_.Body() == []
      ensures rtmp_codec_.timestamp_ == Next(track, m).clock
      ensures PreviousSize(clients_.room.last) == Next(track, m).previous
      ensures Grew(old(clients_.room), clients_.room, if m.IsMedia() then [TagOf(track, m)] else [])
    {
      hide ClientConnections.Valid, TagOf, FanOut.Fed;
      TagCarries(track, m);
      var tag := MakeTag(track, m);
      ProcessNewFlvTag(tag);
    }

    /** ParseBody on the current pack. */
    method TakeBody(buffer: Buffer, ghost c: Core) returns (parsed: int)
      requires Linked() && buffer.Valid() && Foreign(buffer)
      requires c == Core(current_rtmp_pack_.Header(), current_rtmp_pack_.Body(), true, read_chunk_size_)
      requires c.readChunk < RTMP_CHUNK_SIZE
      modifies this`read_chunk_size_, this`parsed_status_, current_rtmp_pack_.buffer_, buffer
      ensures Linked() && buffer.Valid() && Foreign(buffer) && buffer.Capacity() == old(buffer.Capacity())
      ensures var r := ParseBody(c, old(buffer.Contents()));
        && buffer.Contents() == r.rest && parsed_status_ != PARSE_FIRST_HEADER
        && r.core == Core(c.header, if r.done == [] then current_rtmp_pack_.Body() else [],
                          parsed_status_ == PARSE_RTMP_BODY, read_chunk_size_)
        && if r.done == [] then parsed == 0
           else parsed == c.header.Size() > 0 && r.done == [Message(c.header, current_rtmp_pack_.Body())]
    {
      hide FanOut.Served, ParseBody;
      parsed, read_chunk_size_, parsed_status_ := ParseBodyOf(buffer, current_rtmp_pack_, read_chunk_size_, c);
    }

    /** The second half of a round: ParseBody, and the tag of a message that it completes. */
    method BodyPhase(buffer: Buffer, ghost s: Publisher.State) returns (parsed: int)
      requires Linked() && Shows(s) && buffer.Valid() && Foreign(buffer)
      requires s.track.Valid() && s.core.inBody && s.core.readChunk < RTMP_CHUNK_SIZE
      modifies this`read_chunk_size_, this`parsed_status_, this`last_flv_ptr_
      modifies rtmp_codec_, current_rtmp_pack_.buffer_, buffer
      modifies clients_`last_flv_tag_ptr_, clients_`room, clients_.client_connection_map_.Values
      ensures Linked() && buffer.Valid() && Foreign(buffer) && buffer.Capacity() == old(buffer.Capacity())
      ensures var r := ParseBody(s.core, old(buffer.Contents()));
        && buffer.Contents() == r.rest
        && if r.done == [] then
             parsed == 0 && Shows(s.(core := r.core)) && Grew(old(clients_.room), clients_.room, [])
           else
             var m := r.done[0];
             && parsed == m.header.Size()
             && Shows(s.(core := r.core, track := Next(s.track, m)))
             && Grew(old(clients_.room), clients_.room, if m.IsMedia() then [TagOf(s.track, m)] else [])
    {
      hide ClientConnections.Valid, TagOf, ParseBody, Next, FanOut.Fed;
      FanOut.FedNone(clients_.room, clients_.room.headers);
      parsed := TakeBody(buffer, s.core);
      if parsed > 0 {
        DeliverTag(s.track, Message(current_rtmp_pack_.Header(), current_rtmp_pack_.Body()));
      }
    }

    /** The first half of a round: the header, when a header is due. Returns whether a body is due now. */
    method HeaderPhase(buffer: Buffer, ghost s: Publisher.State) returns (ghost c: Core)
      requires Linked() && Shows(s) && buffer.Valid() && Foreign(buffer) && !s.leading
      modifies this`parsed_status_, current_rtmp_pack_, buffer
      ensures Linked() && buffer.Valid() && Foreign(buffer) && buffer.Capacity() == old(buffer.Capacity())
      ensures var p := if s.core.inBody then HeaderParse(0, s.core.header)
                       else ParseHeader(s.core.header, old(buffer.Contents()));
        && buffer.Contents() == old(buffer.Contents())[p.length..]
        && c == (if s.core.inBody || p.length > 0 then s.core.(header := p.header, inBody := true) else s.core)
        && Shows(s.(core := c))
    {
      hide ClientConnections.Valid, ParseHeader;
      if parsed_status_ == PARSE_RTMP_HEADER {
        var parsed := ParseHeaderOf(buffer, current_rtmp_pack_);
        if parsed > 0 {
          buffer.AddReadIndex(parsed);
          parsed_status_ := PARSE_RTMP_BODY;
        }
      }
      c := Core(current_rtmp_pack_.Header(), current_rtmp_pack_.Body(),
                parsed_status_ == PARSE_RTMP_BODY, read_chunk_size_);
    }

    /** The second half of a round, if it is due. */
    method BodyIfDue(buffer: Buffer, ghost s: Publisher.State) returns (parsed: int)
      requires Linked() && Shows(s) && buffer.Valid() && Foreign(buffer)
      requires s.track.Valid() && s.core.readChunk < RTMP_CHUNK_SIZE
      modifies this`read_chunk_size_, this`parsed_status_, this`last_flv_ptr_
      modifies rtmp_codec_, current_rtmp_pack_.buffer_, buffer
      modifies clients_`last_flv_tag_ptr_, clients_`room, clients_.client_connection_map_.Values
      ensures Linked() && buffer.Valid() && Foreign(buffer) && buffer.Capacity() == old(buffer.Capacity())
      ensures var r := Publisher.BodyRound(s, old(buffer.Contents()));
        && parsed == r.parsed && Shows(r.state) && buffer.Contents() == r.rest
        && Grew(old(clients_.room), clients_.room, r.tags)
    {
      hide ClientConnections.Valid, TagOf, ParseBody, Next, FanOut.Fed;
      FanOut.FedNone(clients_.room, clients_.room.headers);
      parsed := 0;
      if parsed_status_ == PARSE_RTMP_BODY {
        parsed := BodyPhase(buffer, s);
      }
    }

    /** One round behind the leading messages. */
    method ChunkRound(buffer: Buffer) returns (parsed: int)
      requires Valid() && buffer.Valid() && Foreign(buffer) && !state.leading
      modifies this`read_chunk_size_, this`parsed_status_, this`last_flv_ptr_, this`state
      modifies rtmp_codec_, current_rtmp_pack_, current_rtmp_pack_.buffer_, buffer
      modifies clients_`last_flv_tag_ptr_, clients_`room, clients_.client_connection_map_.Values
      ensures Valid() && buffer.Valid() && Foreign(buffer) && buffer.Capacity() == old(buffer.Capacity())
      ensures var r := Publisher.ChunkRound(old(state), old(buffer.Contents()));
        && parsed == r.parsed && state == r.state && buffer.Contents() == r.rest
        && Grew(old(clients_.room), clients_.room, r.tags)
    {
      hide ClientConnections.Valid, Linked, Shows, Grew, ParseHeader, Publisher.ChunkRound, Publisher.BodyRound;
      Publisher.ChunkRoundIs(state, buffer.Contents());
      ghost var c := HeaderPhase(buffer, state);
      parsed := BodyIfDue(buffer, state.(core := c));
      state := Publisher.ChunkRound(old(state), old(buffer.Contents())).state;
    }

    /** ParseFirstHeader into the header tags that are shared with the viewer side. */
    method TakeHeaders(buffer: Buffer, locals: Publisher.Locals) returns (parsed: int)
      requires Valid() && buffer.Valid() && Foreign(buffer) && state.leading
      modifies rtmp_codec_, buffer, clients_`room
      modifies clients_.flv_manager_.script_tag_`header_, clients_.flv_manager_.script_tag_.body_
      modifies clients_.flv_manager_.first_tag_`header_, clients_.flv_manager_.first_tag_.body_
      modifies clients_.flv_manager_.second_tag_`header_, clients_.flv_manager_.second_tag_.body_
      ensures Linked() && buffer.Valid() && Foreign(buffer) && buffer.Capacity() == old(buffer.Capacity())
      ensures var r := Publisher.LeadingRound(state, old(buffer.Contents()), locals);
        && parsed == r.parsed && buffer.Contents() == r.rest
        && Publisher.Shows(r.state, rtmp_codec_.timestamp_, clients_.room.headers)
        && clients_.room == old(clients_.room).(headers := r.state.headers)
    {
      hide FanOut.Served, Publisher.LeadingRound;
      parsed := ParseFirstHeaderRound(buffer, clients_.flv_manager_, rtmp_codec_, locals, state);
      clients_.HeadersChanged();
    }

    /** The round that takes the leading messages. */
    method LeadingRound(buffer: Buffer, locals: Publisher.Locals) returns (parsed: int)
      requires Valid() && buffer.Valid() && Foreign(buffer) && state.leading
      modifies this`parsed_status_, this`state, rtmp_codec_, buffer, clients_`room
      modifies clients_.flv_manager_.script_tag_`header_, clients_.flv_manager_.script_tag_.body_
      modifies clients_.flv_manager_.first_tag_`header_, clients_.flv_manager_.first_tag_.body_
      modifies clients_.flv_manager_.second_tag_`header_, clients_.flv_manager_.second_tag_.body_
      ensures Valid() && buffer.Valid() && Foreign(buffer) && buffer.Capacity() == old(buffer.Capacity())
      ensures var r := Publisher.LeadingRound(old(state), old(buffer.Contents()), locals);
        && parsed == r.parsed && state == r.state && buffer.Contents() == r.rest
        && FanOut.Fed(old(clients_.room), clients_.room, state.headers, [])
    {
      hide ClientConnections.Valid, Publisher.LeadingRound, FanOut.Fed;
      Publisher.LeadingRoundKeeps(state, buffer.Contents(), locals);
      ghost var round := Publisher.LeadingRound(state, buffer.Contents(), locals);
      FanOut.FedNone(clients_.room, round.state.headers);
      parsed := TakeHeaders(buffer, locals);
      if parsed > 0 {
        parsed_status_ := PARSE_RTMP_HEADER;
      }
      state := round.state;
    }

    /** One round, whichever it is. */
    method Round(buffer: Buffer, locals: Publisher.Locals) returns (parsed: int, ghost tags: seq<Tag>)
      requires Valid() && buffer.Valid() && Foreign(buffer)
      modifies this`read_chunk_size_, this`parsed_status_, this`last_flv_ptr_, this`state
      modifies rtmp_codec_, current_rtmp_pack_, current_rtmp_pack_.buffer_, buffer
      modifies clients_`last_flv_tag_ptr_, clients_`room, clients_.client_connection_map_.Values
      modifies clients_.flv_manager_.script_tag_`header_, clients_.flv_manager_.script_tag_.body_
      modifies clients_.flv_manager_.first_tag_`header_, clients_.flv_manager_.first_tag_.body_
      modifies clients_.flv_manager_.second_tag_`header_, clients_.flv_manager_.second_tag_.body_
      ensures Valid() && buffer.Valid() && Foreign(buffer) && buffer.Capacity() == old(buffer.Capacity())
      ensures var r := Publisher.RoundFrom(old(state), old(buffer.Contents()), locals);
        && parsed == r.parsed && state == r.state && buffer.Contents() == r.rest && tags == r.tags
      ensures FanOut.Fed(old(clients_.room), clients_.room, state.headers, tags)
      ensures !old(state).leading ==> state.headers == old(state).headers
      ensures state.leading ==> tags == []
    {
      hide ClientConnections.Valid, Publisher.LeadingRound, Publisher.ChunkRound, FanOut.Fed;
      if parsed_status_ == PARSE_FIRST_HEADER {
        Publisher.LeadingRoundKeeps(state, buffer.Contents(), locals);
        tags := [];
        parsed := LeadingRound(buffer, locals);
      } else {
        tags := Publisher.ChunkRound(state, buffer.Contents()).tags;
        parsed := ChunkRound(buffer);
      }
    }

    /** The loop of ParseData: the sum of its results, and whether it ended without an error. */
    method ParseRounds(buffer: Buffer, locals: Publisher.Locals) returns (total: nat, ok: bool)
      requires Valid() && buffer.Valid() && Foreign(buffer)
      modifies this`read_chunk_size_, this`parsed_status_, this`last_flv_ptr_, this`state
      modifies rtmp_codec_, current_rtmp_pack_, current_rtmp_pack_.buffer_, buffer
      modifies clients_`last_flv_tag_ptr_, clients_`room, clients_.client_connection_map_.Values
      modifies clients_.flv_manager_.script_tag_`header_, clients_.flv_manager_.script_tag_.body_
      modifies clients_.flv_manager_.first_tag_`header_, clients_.flv_manager_.first_tag_.body_
      modifies clients_.flv_manager_.second_tag_`header_, clients_.flv_manager_.second_tag_.body_
      ensures Valid() && buffer.Valid() && Foreign(buffer) && buffer.Capacity() == old(buffer.Capacity())
      ensures var r := Publisher.Loop(old(state), old(buffer.Contents()), locals);
        && ok == r.ok && total == r.total && state == r.state && buffer.Contents() == r.rest
        && FanOut.Fed(old(clients_.room), clients_.room, state.headers, r.tags)
      ensures state.parsed == old(state).parsed
    {
      hide ClientConnections.Valid, Publisher.RoundFrom, Publisher.Loop, FanOut.Fed;
      FanOut.FedNone(clients_.room, clients_.room.headers);
      total := 0;
      ghost var sent: seq<Tag> := [];
      ghost var whole := Publisher.Loop(state, buffer.Contents(), locals);
      Publisher.BehindTwice(whole, 0, [], 0, []);
      while true
        invariant Valid() && buffer.Valid() && Foreign(buffer) && buffer.Capacity() == old(buffer.Capacity())
        invariant state.parsed == old(state).parsed
        invariant whole == Publisher.Loop(state, buffer.Contents(), locals).Behind(total, sent)
        invariant FanOut.Fed(old(clients_.room), clients_.room, state.headers, sent)
        invariant state.leading ==> sent == []
        decreases state.leading, Distance(state.core, buffer.Contents())
      {
        Publisher.LoopAdvances(whole, state, buffer.Contents(), locals, total, sent);
        ghost var before, headers := clients_.room, state.headers;
        var parsed, tags := Round(buffer, locals);
        FanOut.FedTwice(old(clients_.room), before, clients_.room, headers, state.headers, sent, tags);
        sent := sent + tags;
        assert parsed <= 0 ==> tags == [];
        if parsed > 0 {
          total := total + parsed;
        } else {
          return total, parsed == 0;
        }
      }
    }

    /** AddClientConnection of the viewer side, which links the header tags that this object shares. */
    method AddClientConnection(client: RtmpClientConnection)
      requires Valid() && clients_.last_flv_tag_ptr_ != null
      requires client !in clients_.client_connection_map_.Values && client.sent == []
      modifies this`state, client
      modifies clients_`client_connection_map_, clients_`room, clients_.header_buffer_
      modifies clients_.last_flv_tag_ptr_`header_
      modifies clients_.flv_manager_.first_tag_`header_, clients_.flv_manager_.second_tag_`header_
      ensures Valid() && clients_.last_flv_tag_ptr_ == old(clients_.last_flv_tag_ptr_)
      ensures clients_.room == FanOut.Join(old(clients_.room), client.name, old(client.connected))
      ensures state == old(state).(headers := clients_.room.headers)
    {
      hide FanOut.Served, FanOut.Join;
      FanOut.JoinKeepsSize(clients_.room, client.name, client.connected);
      clients_.AddClientConnection(client);
      state := state.(headers := clients_.room.headers);
    }

    /** Parses what is in the buffer; the header tags and the tags handed over follow the abstract publisher. */
    method ParseData(buffer: Buffer, locals: Publisher.Locals) returns (result: int)
      requires Valid() && buffer.Valid() && Foreign(buffer)
      modifies this`read_chunk_size_, this`parsed_status_, this`last_flv_ptr_, this`parsed_length_, this`state
      modifies rtmp_codec_, current_rtmp_pack_, current_rtmp_pack_.buffer_, buffer
      modifies clients_`last_flv_tag_ptr_, clients_`room, clients_.client_connection_map_.Values
      modifies clients_.flv_manager_.script_tag_`header_, clients_.flv_manager_.script_tag_.body_
      modifies clients_.flv_manager_.first_tag_`header_, clients_.flv_manager_.first_tag_.body_
      modifies clients_.flv_manager_.second_tag_`header_, clients_.flv_manager_.second_tag_.body_
      ensures Valid() && buffer.Valid() && Foreign(buffer) && buffer.Capacity() == old(buffer.Capacity())
      ensures var r := Publisher.Call(old(state), old(buffer.Contents()), locals);
        && result == (if r.ok then r.total else -1) && state == r.state && buffer.Contents() == r.rest
        && FanOut.Fed(old(clients_.room), clients_.room, state.headers, r.tags)
    {
      hide ClientConnections.Valid, Publisher.Loop, FanOut.Fed;
      FanOut.FedNone(clients_.room, clients_.room.headers);
      if buffer.ReadableLength() == 0 {
        return 0;
      }
      var current_loop_parsed, ok := ParseRounds(buffer, locals);
      if !ok {
        return -1;
      }
      parsed_length_ := parsed_length_ + current_loop_parsed;
      state := state.(parsed := parsed_length_);
      return current_loop_parsed;
    }
  }

  /** The handshake members of RtmpManager. */
  class ShakeHandParser {
    var shake_hand_status_: Handshake.Shake
    const connect_pack_: RtmpPack
    const release_pack_: RtmpPack

    ghost predicate Valid()
      reads this, connect_pack_.buffer_, release_pack_.buffer_
    {
      && connect_pack_.Valid() && release_pack_.Valid()
      && connect_pack_ != release_pack_ && connect_pack_.buffer_ != release_pack_.buffer_
      && shake_hand_status_ != Handshake.DataNotEnough
      && (Handshake.Rank(shake_hand_status_) <= Handshake.Rank(Handshake.Connect) ==> connect_pack_.Body() == [])
      && (Handshake.Rank(shake_hand_status_) <= Handshake.Rank(Handshake.ReleaseStream) ==> release_pack_.Body() == [])
    }

    /** The header fields that the state's pack holds before the message is parsed into it. */
    ghost function PackOf(s: Handshake.Shake, garbage: PackHeader): PackHeader
      reads connect_pack_, release_pack_
    {
      if s == Handshake.Connect then connect_pack_.Header()
      else if s == Handshake.ReleaseStream then release_pack_.Header()
      else garbage
    }

    constructor (connect: PackHeader, release: PackHeader)
      ensures Valid() && fresh(connect_pack_) && fresh(connect_pack_.buffer_)
      ensures fresh(release_pack_) && fresh(release_pack_.buffer_)
      ensures shake_hand_status_ == Handshake.C01
      ensures connect_pack_.Header() == connect && release_pack_.Header() == release
    {
      shake_hand_status_ := Handshake.C01;
      connect_pack_ := new RtmpPack(connect);
      release_pack_ := new RtmpPack(release);
    }

    /** A handshake message into `pack`; the packs of the connect and releaseStream messages keep it. */
    method ParseInto(buffer: Buffer, pack: RtmpPack) returns (parsed: int)
      requires Valid() && buffer.Valid() && pack.Valid() && pack.Body() == []
      requires 2 <= Handshake.Rank(shake_hand_status_) < 8
      requires buffer != pack.buffer_ && buffer != connect_pack_.buffer_ && buffer != release_pack_.buffer_
      requires pack == connect_pack_ ==> shake_hand_status_ == Handshake.Connect
      requires pack == release_pack_ ==> shake_hand_status_ == Handshake.ReleaseStream
      requires pack != connect_pack_ ==>
          pack.buffer_ != connect_pack_.buffer_ && shake_hand_status_ != Handshake.Connect
      requires pack != release_pack_ ==>
          pack.buffer_ != release_pack_.buffer_ && shake_hand_status_ != Handshake.ReleaseStream
      modifies this`shake_hand_status_, buffer, pack, pack.buffer_
      ensures Valid() && buffer.Valid() && buffer.Capacity() == old(buffer.Capacity())
      ensures var m := Handshake.ParseMessage(old(pack.Header()), old(buffer.Contents()));
        && parsed == m.consumed && pack.Header() == m.header && pack.Valid() && pack.Body() == m.body
        && buffer.Contents() == m.rest && (parsed <= 0 ==> m.rest == old(buffer.Contents()))
        && shake_hand_status_ ==
          if m.consumed <= 0 then old(shake_hand_status_) else Handshake.NextOf(old(shake_hand_status_))
    {
      hide Handshake.ParseMessage;
      parsed := ParseHeaderAndBody(buffer, pack);
      if parsed > 0 {
        shake_hand_status_ := Handshake.NextOf(shake_hand_status_);
      }
    }

    /** A message into a pack on the stack; `garbage` is what that holds before. */
    method ParseOnStack(buffer: Buffer, garbage: PackHeader) returns (parsed: int)
      requires Valid() && buffer.Valid() && buffer != connect_pack_.buffer_ && buffer != release_pack_.buffer_
      requires 2 <= Handshake.Rank(shake_hand_status_) < 8
      requires shake_hand_status_ != Handshake.Connect && shake_hand_status_ != Handshake.ReleaseStream
      modifies this`shake_hand_status_, buffer
      ensures Valid() && buffer.Valid() && buffer.Capacity() == old(buffer.Capacity())
      ensures var m := Handshake.ParseMessage(garbage, old(buffer.Contents()));
        parsed == m.consumed && buffer.Contents() == m.rest && (parsed <= 0 ==> m.rest == old(buffer.Contents()))
      ensures shake_hand_status_ ==
        if parsed <= 0 then old(shake_hand_status_) else Handshake.NextOf(old(shake_hand_status_))
    {
      hide Handshake.ParseMessage;
      var pack := new RtmpPack(garbage);
      parsed := ParseInto(buffer, pack);
    }

    /** C0 and C1, or C2, by their lengths. */
    method TakeGreeting(buffer: Buffer, length: nat) returns (reported: Handshake.Shake)
      requires Valid() && buffer.Valid() && buffer != connect_pack_.buffer_ && buffer != release_pack_.buffer_
      requires Handshake.Rank(shake_hand_status_) < 2
      modifies this`shake_hand_status_, buffer
      ensures Valid() && buffer.Valid() && buffer.Capacity() == old(buffer.Capacity())
      ensures Handshake.StepResult(reported, shake_hand_status_, buffer.Contents()) ==
        if |old(buffer.Contents())| < length then
          Handshake.StepResult(Handshake.DataNotEnough, old(shake_hand_status_), old(buffer.Contents()))
        else
          Handshake.StepResult(old(shake_hand_status_), Handshake.NextOf(old(shake_hand_status_)),
            old(buffer.Contents())[length..])
    {
      if buffer.ReadableLength() < length {
        return Handshake.DataNotEnough;
      }
      buffer.AddReadIndex(length);
      reported := shake_hand_status_;
      shake_hand_status_ := Handshake.NextOf(shake_hand_status_);
    }

    /** One step of the handshake, with the branch that fails. */
    method ParseShakeHand(buffer: Buffer, garbage: PackHeader) returns (reported: Handshake.Shake)
      requires Valid() && buffer.Valid() && buffer != connect_pack_.buffer_ && buffer != release_pack_.buffer_
      modifies this`shake_hand_status_, buffer, connect_pack_, connect_pack_.buffer_, release_pack_
      modifies release_pack_.buffer_
      ensures Valid() && buffer.Valid() && buffer.Capacity() == old(buffer.Capacity())
      ensures Handshake.StepResult(reported, shake_hand_status_, buffer.Contents()) ==
        Handshake.Step(old(shake_hand_status_), old(buffer.Contents()), old(PackOf(shake_hand_status_, garbage)))
      ensures old(shake_hand_status_) != Handshake.Connect ==> connect_pack_.Header() == old(connect_pack_.Header())
      ensures old(shake_hand_status_) != Handshake.ReleaseStream ==>
          release_pack_.Header() == old(release_pack_.Header())
      ensures reported == Handshake.Connect ==>
        connect_pack_.Body() == Handshake.ParseMessage(old(connect_pack_.Header()), old(buffer.Contents())).body
      ensures reported == Handshake.ReleaseStream ==>
        release_pack_.Body() == Handshake.ParseMessage(old(release_pack_.Header()), old(buffer.Contents())).body
    {
      hide Handshake.ParseMessage;
      var status := shake_hand_status_;
      if Handshake.Rank(status) >= 8 {
        return status;
      }
      var parse;
      if status == Handshake.C01 || status == Handshake.C2 {
        reported := TakeGreeting(buffer, if status == Handshake.C01 then Handshake.C01_LENGTH else Handshake.C2_LENGTH);
        return reported;
      } else if Handshake.IsC3(status, buffer.Contents()) {
        buffer.AddReadIndex(Handshake.CREATE_STREAM_C3_LENGTH);
        shake_hand_status_ := Handshake.Publish;
        return status;
      } else if status == Handshake.Connect {
        parse := ParseInto(buffer, connect_pack_);
      } else if status == Handshake.ReleaseStream {
        parse := ParseInto(buffer, release_pack_);
      } else {
        parse := ParseOnStack(buffer, garbage);
      }
      if parse > 0 {
        return status;
      } else if parse == 0 {
        return Handshake.DataNotEnough;
      } else {
        shake_hand_status_ := Handshake.Failed;
        return Handshake.Failed;
      }
    }
  }
}
