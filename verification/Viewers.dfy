/**
 The viewer side of RtmpServerConnection: the client map, the shared last tag, the header cache.
 Every method is proved to be the corresponding step of the fan-out state machine.
 */
module Viewers {
  import opened Bytes
  import opened Buffers
  import opened FlvCodec
  import opened FlvManagers
  import opened Format
  import opened HttpChunks
  import opened FanOut

  lemma FrameParts(line: seq<Byte>, header: seq<Byte>, body: seq<Byte>)
    ensures [] + line + header + body + CRLF == line + (header + body) + CRLF
  {
  }

  lemma StreamParts(response: seq<Byte>, line: seq<Byte>, payload: seq<Byte>)
    ensures [] + response + line + payload + CRLF == response + (line + payload + CRLF)
  {
  }

  /** What EncodeHeadersToBuffer puts into a new buffer of the default size. */
  method EncodeToTemporary(flv_manager: FlvManager) returns (payload: seq<Byte>)
    requires flv_manager.Valid()
    modifies flv_manager.first_tag_`header_, flv_manager.second_tag_`header_
    ensures flv_manager.Valid()
    ensures var h := old(flv_manager.Value());
      && payload == HeaderPayload(h)
      && flv_manager.Value() == if h.BlockSize() <= HEADER_CAPACITY then h.Linked() else h
  {
    var header_buffer_temp := new Buffer();
    ghost var h := flv_manager.Value();
    var encoded := flv_manager.EncodeHeadersToBuffer(header_buffer_temp);
    payload := header_buffer_temp.Contents();
    assert [] + Block(h) == Block(h);
  }

  /** The body of GetHeaderDataBuffer: the response header, then the header block as one chunk. */
  method EncodeHeaderStream(response: seq<Byte>, payload: seq<Byte>, buffer: Buffer)
    requires buffer.Valid() && buffer.Contents() == []
    modifies buffer
    ensures buffer.Valid() && buffer.Contents() == response + Frame(payload)
  {
    var length_rn := Ascii(ToHexStringWithCrlf(|payload|));
    buffer.AppendData(response);
    buffer.AppendData(length_rn);
    buffer.AppendData(payload);
    buffer.AppendData(CRLF);
    StreamParts(response, length_rn, payload);
  }

  /** One tag framed as an HTTP chunk; built once and handed to all viewers. */
  class FlvTagBuffer {
    const buffer_size_: nat
    const buffer_: Buffer

    constructor (flv_tag: FlvTag)
      requires flv_tag.Valid()
      ensures fresh(buffer_) && buffer_.Valid()
      ensures buffer_.Contents() == TagFrame(flv_tag.Value())
    {
      buffer_size_ := FLV_TAG_HEADER_LENGTH + flv_tag.body_.ReadableLength();
      buffer_ := new Buffer(FLV_TAG_HEADER_LENGTH + flv_tag.body_.ReadableLength());
      new;
      ghost var size_line := Ascii(ToHexStringWithCrlf(buffer_size_));
      ghost var t := flv_tag.Value();
      buffer_.AppendData(Ascii(ToHexStringWithCrlf(buffer_size_)));
      buffer_.AppendData(flv_tag.header_);
      buffer_.AppendData(flv_tag.body_.Contents());
      buffer_.AppendData(CRLF);
      FrameParts(size_line, t.header, t.body);
    }
  }

  /** A viewer, with the bytes that were handed to its TcpConnection while that was CONNECTED. */
  class RtmpClientConnection {
    const name: string
    var connected: bool
    var sent: seq<Byte>
    ghost var from: nat

    constructor (name: string, connected: bool)
      ensures this.name == name && this.connected == connected && sent == []
    {
      this.name, this.connected, sent := name, connected, [];
    }

    ghost function Value(): Viewer
      reads this
    {
      Viewer(connected, sent, from)
    }

    /** TcpConnection::Send: data for a connection that is not CONNECTED is dropped. */
    method Send(data: seq<Byte>)
      modifies this`sent
      ensures Value() == old(Value()).Give(data)
    {
      if connected {
        sent := sent + data;
      }
    }

    method SendHeader(buffer: Buffer)
      requires buffer.Valid()
      modifies this`sent
      ensures Value() == old(Value()).Give(buffer.Contents())
    {
      Send(buffer.Contents());
    }

    method AddNewTag(tag_buffer: FlvTagBuffer)
      requires tag_buffer.buffer_.Valid()
      modifies this`sent
      ensures Value() == old(Value()).Give(tag_buffer.buffer_.Contents())
    {
      Send(tag_buffer.buffer_.Contents());
    }
  }

  class ClientConnections {
    /** The global `response_header`. */
    const response_header: seq<Byte>
    const flv_manager_: FlvManager
    const header_buffer_: Buffer
    var last_flv_tag_ptr_: FlvTag?
    var client_connection_map_: map<string, RtmpClientConnection>

    /** The abstract state, tied to the objects by Sound(). */
    ghost var room: Room

    /** The tag shares no object with the header tags or the cache. */
    ghost predicate Apart(tag: FlvTag) {
      !flv_manager_.UsesTag(tag) && !flv_manager_.Uses(tag.body_) && tag.body_ != header_buffer_
    }

    /** Everything but the viewers. */
    ghost predicate StoreValid()
      reads this, header_buffer_, last_flv_tag_ptr_
      reads if last_flv_tag_ptr_ == null then header_buffer_ else last_flv_tag_ptr_.body_
      reads flv_manager_.script_tag_, flv_manager_.script_tag_.body_, flv_manager_.first_tag_
      reads flv_manager_.first_tag_.body_
      reads flv_manager_.second_tag_, flv_manager_.second_tag_.body_, flv_manager_.buffer_
    {
      && header_buffer_.Valid() && flv_manager_.Valid()
      && !flv_manager_.Uses(header_buffer_)
      && (last_flv_tag_ptr_ != null ==> last_flv_tag_ptr_.Valid() && Apart(last_flv_tag_ptr_))
      && room.response == response_header
      && room.headers == flv_manager_.Value()
      && room.cache == header_buffer_.Contents()
      && room.last == (if last_flv_tag_ptr_ == null then None else Some(last_flv_tag_ptr_.Value()))
    }

    ghost predicate ViewersMatch()
      reads this, client_connection_map_.Values
    {
      && room.viewers.Keys == client_connection_map_.Keys
      && (forall n :: n in client_connection_map_ ==>
          client_connection_map_[n].name == n && client_connection_map_[n].Value() == room.viewers[n])
    }

    /** The objects show the abstract state. */
    ghost predicate Sound()
      reads this, header_buffer_, last_flv_tag_ptr_
      reads if last_flv_tag_ptr_ == null then header_buffer_ else last_flv_tag_ptr_.body_
      reads flv_manager_.script_tag_, flv_manager_.script_tag_.body_, flv_manager_.first_tag_
      reads flv_manager_.first_tag_.body_
      reads flv_manager_.second_tag_, flv_manager_.second_tag_.body_, flv_manager_.buffer_
      reads client_connection_map_.Values
    {
      StoreValid() && ViewersMatch()
    }

    /** Moreover every viewer was sent what it is owed. */
    ghost predicate Valid()
      reads this, header_buffer_, last_flv_tag_ptr_
      reads if last_flv_tag_ptr_ == null then header_buffer_ else last_flv_tag_ptr_.body_
      reads flv_manager_.script_tag_, flv_manager_.script_tag_.body_, flv_manager_.first_tag_
      reads flv_manager_.first_tag_.body_
      reads flv_manager_.second_tag_, flv_manager_.second_tag_.body_, flv_manager_.buffer_
      reads client_connection_map_.Values
    {
      Sound() && Served(room)
    }

    ghost predicate Uses(b: Buffer)
      reads this`last_flv_tag_ptr_
    {
      flv_manager_.Uses(b) || b == header_buffer_ || (last_flv_tag_ptr_ != null && b == last_flv_tag_ptr_.body_)
    }

    constructor (response_header: seq<Byte>, flv_manager: FlvManager)
      requires flv_manager.Valid()
      ensures Valid() && flv_manager_ == flv_manager && fresh(header_buffer_) && client_connection_map_ == map[]
      ensures room == Empty(response_header, flv_manager.Value())
    {
      this.response_header := response_header;
      flv_manager_ := flv_manager;
      header_buffer_ := new Buffer();
      last_flv_tag_ptr_ := null;
      client_connection_map_ := map[];
      room := Empty(response_header, flv_manager.Value());
    }

    /** The publisher's parser has filled the header tags, which it shares with this object. */
    ghost method HeadersChanged()
      requires header_buffer_.Valid() && flv_manager_.Valid() && !flv_manager_.Uses(header_buffer_)
      requires last_flv_tag_ptr_ == null && room.last.None? && room.response == response_header
      requires room.cache == header_buffer_.Contents() && ViewersMatch() && Served(room)
      modifies this`room
      ensures Valid()
      ensures room == old(room).(headers := flv_manager_.Value())
    {
      var e := SetHeaders(flv_manager_.Value());
      StepServes(room, e);
      room := Step(room, e);
    }

    /** The loop over the client map. */
    method AddToEach(tag_buffer: FlvTagBuffer, ghost before: map<string, Viewer>)
      requires StoreValid() && tag_buffer.buffer_.Valid()
      requires before.Keys == client_connection_map_.Keys
      requires forall n :: n in client_connection_map_ ==>
        client_connection_map_[n].name == n && client_connection_map_[n].Value() == before[n]
      modifies client_connection_map_.Values
      ensures StoreValid()
      ensures forall n :: n in client_connection_map_ ==>
        client_connection_map_[n].Value() == before[n].Give(tag_buffer.buffer_.Contents())
    {
      hide StoreValid;
      var names := client_connection_map_.Keys;
      while names != {}
        invariant names <= client_connection_map_.Keys && StoreValid()
        invariant forall n :: n in client_connection_map_ ==>
          client_connection_map_[n].Value() ==
            if n in names then before[n] else before[n].Give(tag_buffer.buffer_.Contents())
      {
        var name :| name in names;
        client_connection_map_[name].AddNewTag(tag_buffer);
        names := names - {name};
      }
    }

    /** Hands the framed tag to every viewer. */
    method SendToAll(tag_buffer: FlvTagBuffer)
      requires Sound() && tag_buffer.buffer_.Valid()
      modifies this`room, client_connection_map_.Values
      ensures Sound()
      ensures room == old(room).(viewers := GiveAll(old(room).viewers, tag_buffer.buffer_.Contents()))
    {
      ghost var before := room.viewers;
      room := room.(viewers := GiveAll(before, tag_buffer.buffer_.Contents()));
      assert StoreValid();
      AddToEach(tag_buffer, before);
    }

    method SetLastTag(tag: FlvTag)
      requires Sound() && tag.Valid() && Apart(tag)
      modifies this`last_flv_tag_ptr_, this`room
      ensures Sound() && last_flv_tag_ptr_ == tag
      ensures room == old(room).(last := Some(tag.Value()), published := old(room).published + [tag.Value()])
    {
      last_flv_tag_ptr_ := tag;
      room := room.(last := Some(tag.Value()), published := room.published + [tag.Value()]);
    }

    /** The tag becomes the last one and goes, framed once, to every viewer. */
    method OnNewFlvTag(tag: FlvTag)
      requires Valid() && tag.Valid() && Apart(tag)
      modifies this`last_flv_tag_ptr_, this`room, client_connection_map_.Values
      ensures Valid() && last_flv_tag_ptr_ == tag
      ensures room == Publish(old(room), tag.Value())
    {
      hide Served, ViewersMatch;
      PublishServes(room, tag.Value());
      SetLastTag(tag);
      var tag_buffer := new FlvTagBuffer(tag);
      SendToAll(tag_buffer);
    }

    /** Prints the header stream unless it is there. */
    method FillCache()
      requires StoreValid()
      modifies header_buffer_, flv_manager_.first_tag_`header_, flv_manager_.second_tag_`header_
      ensures header_buffer_.Valid() && flv_manager_.Valid()
      ensures header_buffer_.Contents() == WithCache(room).cache && flv_manager_.Value() == WithCache(room).headers
    {
      if header_buffer_.ReadableLength() == 0 {
        var payload := EncodeToTemporary(flv_manager_);
        EncodeHeaderStream(response_header, payload, header_buffer_);
      }
    }

    /** Prints the header stream on the first use, and keeps it. */
    method GetHeaderDataBuffer() returns (buffer: Buffer)
      requires Sound()
      modifies this`room, header_buffer_, flv_manager_.first_tag_`header_, flv_manager_.second_tag_`header_
      ensures Sound() && buffer == header_buffer_
      ensures room == WithCache(old(room))
    {
      FillCache();
      room := WithCache(room);
      return header_buffer_;
    }

    /** PreviousTagSize is rewritten in the shared object. */
    method RelinkLastTag()
      requires Sound() && last_flv_tag_ptr_ != null
      modifies this`room, last_flv_tag_ptr_`header_
      ensures Sound()
      ensures room == old(room).(last :=
        Some(old(room).last.value.WithPrevious(old(room).headers.second.CurrentTagSize())))
    {
      var size := flv_manager_.second_tag_.GetCurrentTagSize();
      last_flv_tag_ptr_.SetPreviousTagSize(size);
      room := room.(last := Some(last_flv_tag_ptr_.Value()));
    }

    /** Sends the last tag, announcing the size of the last header tag. */
    method SendLastTag(client: RtmpClientConnection)
      requires Sound() && last_flv_tag_ptr_ != null && client !in client_connection_map_.Values
      modifies this`room, client`sent, last_flv_tag_ptr_`header_
      ensures Sound()
      ensures var t := old(room).last.value.WithPrevious(old(room).headers.second.CurrentTagSize());
        && room == old(room).(last := Some(t))
        && client.Value() == old(client.Value()).Give(TagFrame(t))
    {
      hide ViewersMatch, TagFrame;
      RelinkLastTag();
      var tag_buffer := new FlvTagBuffer(last_flv_tag_ptr_);
      client.AddNewTag(tag_buffer);
    }

    method SendHeaderToClientConnection(client: RtmpClientConnection)
      requires Sound() && last_flv_tag_ptr_ != null && client !in client_connection_map_.Values
      modifies this`room, client`sent, header_buffer_, last_flv_tag_ptr_`header_
      modifies flv_manager_.first_tag_`header_, flv_manager_.second_tag_`header_
      ensures Sound()
      ensures var r := WithCache(old(room));
        var t := r.last.value.WithPrevious(r.headers.second.CurrentTagSize());
        && room == r.(last := Some(t))
        && client.Value() == old(client.Value()).Give(r.cache).Give(TagFrame(t))
    {
      var header_buffer := GetHeaderDataBuffer();
      client.SendHeader(header_buffer);
      SendLastTag(client);
    }

    /** `client_connection_map_[name] = client`. */
    method Register(client: RtmpClientConnection)
      requires Sound() && client !in client_connection_map_.Values
      modifies this`client_connection_map_, this`room
      ensures Sound()
      ensures client_connection_map_ == old(client_connection_map_)[client.name := client]
      ensures room == old(room).(viewers := old(room).viewers[client.name := client.Value()])
    {
      client_connection_map_ := client_connection_map_[client.name := client];
      room := room.(viewers := room.viewers[client.name := client.Value()]);
    }

    /** What a join does to the objects. */
    method Admit(client: RtmpClientConnection)
      requires Sound() && last_flv_tag_ptr_ != null && room.published != []
      requires client !in client_connection_map_.Values && client.sent == []
      modifies this`client_connection_map_, this`room, client, header_buffer_, last_flv_tag_ptr_`header_
      modifies flv_manager_.first_tag_`header_, flv_manager_.second_tag_`header_
      ensures Sound()
      ensures room == Join(old(room), client.name, old(client.connected))
    {
      hide HeaderStream, TagFrame;
      client.from := |room.published| - 1;
      SendHeaderToClientConnection(client);
      Register(client);
    }

    /** A viewer joins. The source registers it before it sends the header; nothing in between reads the map. */
    method AddClientConnection(client: RtmpClientConnection)
      requires Valid() && last_flv_tag_ptr_ != null
      requires client !in client_connection_map_.Values && client.sent == []
      modifies this`client_connection_map_, this`room, client, header_buffer_, last_flv_tag_ptr_`header_
      modifies flv_manager_.first_tag_`header_, flv_manager_.second_tag_`header_
      ensures Valid()
      ensures room == Join(old(room), client.name, old(client.connected))
    {
      hide ViewersMatch, Served, Join;
      JoinKeepsSize(room, client.name, client.connected);
      JoinServes(room, client.name, client.connected);
      Admit(client);
    }

    method MarkClosed(client: RtmpClientConnection)
      requires Sound() && client in client_connection_map_.Values
      modifies this`room, client`connected
      ensures Sound() && room == Close(old(room), client.name)
    {
      client.connected := false;
      room := Close(room, client.name);
    }

    /** The connection left the CONNECTED state. */
    method OnConnectionLost(client: RtmpClientConnection)
      requires Valid() && client in client_connection_map_.Values
      modifies this`room, client`connected
      ensures Valid() && room == Close(old(room), client.name)
    {
      CloseServes(room, client.name);
      MarkClosed(client);
    }

    method Unregister(name: string)
      requires Sound()
      modifies this`client_connection_map_, this`room
      ensures Sound() && room == Leave(old(room), name)
      ensures client_connection_map_ == old(client_connection_map_) - {name}
    {
      client_connection_map_ := client_connection_map_ - {name};
      room := Leave(room, name);
    }

    method OnConnectionClose(name: string)
      requires Valid()
      modifies this`client_connection_map_, this`room
      ensures Valid() && room == Leave(old(room), name)
      ensures client_connection_map_ == old(client_connection_map_) - {name}
    {
      LeaveServes(room, name);
      Unregister(name);
    }
  }
}
