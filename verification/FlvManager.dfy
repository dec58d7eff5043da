/** utils/codec/FlvManager: the file header with the three leading tags, printed for viewers and parsed from a file. */
module FlvManagers {
  import opened Bytes
  import opened Buffers
  import opened FlvCodec
  import opened Format
  import opened Players

  const BUFFER_SIZE := 30000

  /** The script tag and the first two media tags: what every viewer needs before live tags. */
  datatype Headers = Headers(script: Tag, first: Tag, second: Tag) {

    /** The second and third tag announce the size of their predecessor. */
    function Linked(): Headers {
      this.(first := first.WithPrevious(script.CurrentTagSize()),
            second := second.WithPrevious(first.CurrentTagSize()))
    }

    /** The size that EncodeHeadersToBuffer asks for, from the announced sizes. */
    function BlockSize(): nat {
      FLV_HEADER_LENGTH + script.CurrentTagSize() + 4 + first.CurrentTagSize() + 4 + second.CurrentTagSize() + 4
    }

    predicate Sized() { script.Sized() && first.Sized() && second.Sized() }

    function Tags(): seq<Tag> { [script, first, second] }
  }

  /** Linking rewrites two PreviousTagSize fields and nothing else. */
  lemma LinkedFields(h: Headers)
    ensures var k := h.Linked();
      && k.script == h.script && k.first.body == h.first.body && k.second.body == h.second.body
      && k.first.PreviousTagSize() == k.script.CurrentTagSize()
      && k.second.PreviousTagSize() == k.first.CurrentTagSize()
      && k.first.DataSize() == h.first.DataSize() && k.second.DataSize() == h.second.DataSize()
  {
    WithPreviousFields(h.first, h.script.CurrentTagSize());
    WithPreviousFields(h.second, h.first.CurrentTagSize());
  }

  function SerializeAll(tags: seq<Tag>): seq<Byte> {
    if tags == [] then [] else tags[0].Serialized() + SerializeAll(tags[1..])
  }

  /** The header block of a stream. */
  function Block(h: Headers): seq<Byte> {
    DEFAULT_HEADER + SerializeAll(h.Linked().Tags())
  }

  lemma SerializeThree(h: Headers)
    ensures SerializeAll(h.Tags()) == h.script.Serialized() + h.first.Serialized() + h.second.Serialized()
  {
    var s := h.Tags();
    assert s[1..] == [h.first, h.second] && s[1..][1..] == [h.second];
    assert SerializeAll([h.second]) == h.second.Serialized();
  }

  lemma BlockParts(h: Headers, before: seq<Byte>)
    ensures before + DEFAULT_HEADER + h.script.Serialized() + h.Linked().first.Serialized()
        + h.Linked().second.Serialized()
      == before + Block(h)
  {
    SerializeThree(h.Linked());
  }

  lemma BlockLength(h: Headers)
    requires h.Sized()
    ensures |Block(h)| == h.BlockSize()
  {
    SerializeThree(h.Linked());
    LinkedFields(h);
  }

  lemma {:induction false} SerializeAppend(a: seq<Tag>, b: seq<Tag>)
    ensures SerializeAll(a + b) == SerializeAll(a) + SerializeAll(b)
  {
    if a == [] {
      assert a + b == b;
    } else {
      assert (a + b)[1..] == a[1..] + b;
      SerializeAppend(a[1..], b);
    }
  }

  // ---------------------------------------------------------------- what a player makes of it

  /** A file with these tags. */
  function FlvFile(tags: seq<Tag>): seq<Byte> {
    DEFAULT_HEADER + SerializeAll(tags)
  }

  /** A tag as a player shows it. */
  function AsPlayed(t: Tag): Played {
    Played(t.PreviousTagSize(), t.Kind(), t.DataSize(), t.header[11] as int * TWO_TO_24 + t.Time(),
      U24(t.header[12..15]), t.body)
  }

  function AllPlayed(tags: seq<Tag>): (p: seq<Played>)
    ensures |p| == |tags| && forall i :: 0 <= i < |tags| ==> p[i] == AsPlayed(tags[i])
  {
    seq(|tags|, i requires 0 <= i < |tags| => AsPlayed(tags[i]))
  }

  lemma FieldsAre(t: Tag)
    ensures FieldsOf(t.header).(body := t.body) == AsPlayed(t)
  {
  }

  lemma SerializedShape(t: Tag, rest: seq<Byte>)
    ensures var s := t.Serialized() + rest;
      && |s| == FLV_TAG_HEADER_LENGTH + |t.body| + |rest|
      && s[..FLV_TAG_HEADER_LENGTH] == t.header && s[FLV_TAG_HEADER_LENGTH..] == t.body + rest
      && s[5..8] == t.header[5..8]
  {
    var s := t.Serialized() + rest;
    assert s[FLV_TAG_HEADER_LENGTH..] == t.body + rest;
  }

  lemma SerializeFirst(tags: seq<Tag>, tail: seq<Byte>)
    requires tags != []
    ensures SerializeAll(tags) + tail == tags[0].header + (tags[0].body + (SerializeAll(tags[1..]) + tail))
    ensures AllPlayed(tags) == [AsPlayed(tags[0])] + AllPlayed(tags[1..])
  {
    Regroup4(tags[0].header, tags[0].body, SerializeAll(tags[1..]), tail);
  }

  lemma ConsPrefix(first: Played, tags: seq<Played>, more: seq<Played>)
    ensures [first] + (tags + more) == [first] + tags + more
  {
  }

  lemma SizeIsPlayed(t: Tag)
    ensures AsPlayed(t).size == t.DataSize()
  {
  }

  /** A player reads sized tags back, field by field, and goes on behind them. */
  lemma {:induction false} PlayerReadsTags(tags: seq<Tag>, tail: seq<Byte>)
    requires forall i :: 0 <= i < |tags| ==> tags[i].Sized()
    ensures Play(SerializeAll(tags) + tail) == AllPlayed(tags) + Play(tail)
  {
    hide Play, FieldsOf, AsPlayed;
    if tags == [] {
      assert [] + tail == tail;
    } else {
      SerializeFirst(tags, tail);
      FieldsAre(tags[0]);
      SizeIsPlayed(tags[0]);
      PlayFirst(tags[0].header, tags[0].body, SerializeAll(tags[1..]) + tail);
      PlayerReadsTags(tags[1..], tail);
      ConsPrefix(AsPlayed(tags[0]), AllPlayed(tags[1..]), Play(tail));
    }
  }

  lemma PlayNothing()
    ensures Play([]) == []
  {
  }

  /** A player accepts the file header, starts where it says, and shows exactly these tags. */
  lemma PlayerReadsFile(tags: seq<Tag>)
    requires forall i :: 0 <= i < |tags| ==> tags[i].Sized()
    ensures PlayFile(FlvFile(tags)) == Some(AllPlayed(tags))
  {
    hide Play;
    PlayerReadsTags(tags, []);
    var all := FlvFile(tags);
    assert all[9..] == SerializeAll(tags) == SerializeAll(tags) + [];
    assert AllPlayed(tags) + Play([]) == AllPlayed(tags) by {
      assert Play([]) == [] by {
        PlayNothing();
      }
    }
  }

  // ---------------------------------------------------------------- the source's own parser

  /** `ssize_t` result, the tag afterwards, the unread bytes. */
  datatype TagParse = TagParse(result: int, tag: Tag, rest: seq<Byte>)

  /** `size_t` subtraction of two `uint32_t` sizes. */
  function Missing(size: nat, received: nat): nat {
    (size - received) % 0x1_0000_0000_0000_0000
  }

  /** ParseTagHeader followed by ParseTagData, as ParseScripTag and ParseVideoAudio combine them. */
  function DecodeTag(t: Tag, buf: seq<Byte>): TagParse {
    if |buf| < FLV_TAG_HEADER_LENGTH then TagParse(-1, t, buf)
    else
      var t1 := t.(header := buf[..FLV_TAG_HEADER_LENGTH]);
      var rest := buf[FLV_TAG_HEADER_LENGTH..];
      var remain := Missing(t1.DataSize(), |t1.body|);
      if remain <= |rest| then
        TagParse(if t1.DataSize() == 0 then -1 else FLV_TAG_HEADER_LENGTH + t1.DataSize(),
          t1.(body := t1.body + rest[..remain]), rest[remain..])
      else TagParse(-1, t1.(body := t1.body + rest), [])
  }

  /** A printed tag parses back into an empty tag if and only if its body is not empty. */
  lemma TagRoundTrip(blank: Tag, t: Tag, tail: seq<Byte>)
    requires blank.body == [] && t.Sized()
    ensures var p := DecodeTag(blank, t.Serialized() + tail);
      && p.tag == t && p.rest == tail
      && p.result == if t.body == [] then -1 else |t.Serialized()|
  {
    SerializedShape(t, tail);
    FrontAndRest(t.body, tail);
    assert [] + t.body == t.body;
  }

  /** A tag that holds the first part of its body already takes exactly what is missing. */
  lemma TagResumes(begun: Tag, t: Tag, tail: seq<Byte>)
    requires t.Sized() && begun.body <= t.body
    ensures var p := DecodeTag(begun, t.header + (t.body[|begun.body|..] + tail));
      && p.tag == t && p.rest == tail
      && p.result == if t.body == [] then -1 else 15 + |t.body|
  {
    FrontAndRest(t.header, t.body[|begun.body|..] + tail);
    FrontAndRest(t.body[|begun.body|..], tail);
    assert begun.body + t.body[|begun.body|..] == t.body;
  }

  /** The source's ParseVideoAudio: two tags in a row; a first one that fails ends it. */
  datatype PairParse = PairParse(result: int, first: Tag, second: Tag, rest: seq<Byte>)

  function DecodePair(first: Tag, second: Tag, buf: seq<Byte>): PairParse {
    var f := DecodeTag(first, buf);
    if f.result <= 0 then PairParse(-1, f.tag, second, f.rest)
    else
      var g := DecodeTag(second, f.rest);
      PairParse(if g.result <= 0 then -1 else f.result + g.result, f.tag, g.tag, g.rest)
  }

  /** ParseScripTag and then ParseVideoAudio, as ParseFile calls them: it gives up at the first error. */
  datatype BlockParse = BlockParse(result: int, headers: Headers, rest: seq<Byte>)

  function DecodeBlock(blank: Headers, buf: seq<Byte>): BlockParse {
    var s := DecodeTag(blank.script, buf);
    if s.result <= 0 then BlockParse(-1, blank.(script := s.tag), s.rest)
    else
      var v := DecodePair(blank.first, blank.second, s.rest);
      BlockParse(if v.result <= 0 then -1 else s.result + v.result, Headers(s.tag, v.first, v.second), v.rest)
  }

  /** Three printed tags: the parser fails behind the first empty body. */
  function BlockParsed(k: Headers, blank: Headers, tail: seq<Byte>): BlockParse {
    if k.script.body == [] then
      BlockParse(-1, blank.(script := k.script), k.first.Serialized() + (k.second.Serialized() + tail))
    else if k.first.body == [] then
      BlockParse(-1, Headers(k.script, k.first, blank.second), k.second.Serialized() + tail)
    else if k.second.body == [] then BlockParse(-1, k, tail)
    else BlockParse(|k.script.Serialized()| + |k.first.Serialized()| + |k.second.Serialized()|, k, tail)
  }

  lemma TagsRoundTrip(k: Headers, blank: Headers, tail: seq<Byte>)
    requires k.Sized() && blank.script.body == blank.first.body == blank.second.body == []
    ensures DecodeBlock(blank, k.script.Serialized() + (k.first.Serialized() + (k.second.Serialized() + tail)))
      == BlockParsed(k, blank, tail)
  {
    hide DecodeTag;
    var y, z := k.first.Serialized(), k.second.Serialized();
    TagRoundTrip(blank.script, k.script, y + (z + tail));
    TagRoundTrip(blank.first, k.first, z + tail);
    TagRoundTrip(blank.second, k.second, tail);
  }

  lemma BlockBehindFileHeader(h: Headers, tail: seq<Byte>)
    ensures (Block(h) + tail)[FLV_HEADER_LENGTH..] ==
      h.Linked().script.Serialized() + (h.Linked().first.Serialized() + (h.Linked().second.Serialized() + tail))
  {
    SerializeThree(h.Linked());
    var x, y, z := h.Linked().script.Serialized(), h.Linked().first.Serialized(), h.Linked().second.Serialized();
    assert (Block(h) + tail)[FLV_HEADER_LENGTH..] == (x + y + z) + tail;
  }

  /** A whole header block behind its file header: if no body is empty, the three tags come back byte for
      byte and exactly the block is consumed; otherwise it fails, and stops behind the first empty body. */
  lemma BlockRoundTrip(h: Headers, blank: Headers, tail: seq<Byte>)
    requires h.Sized() && blank.script.body == blank.first.body == blank.second.body == []
    ensures var p := DecodeBlock(blank, (Block(h) + tail)[FLV_HEADER_LENGTH..]);
      && p == BlockParsed(h.Linked(), blank, tail)
      && (p.result > 0 <==> h.script.body != [] && h.first.body != [] && h.second.body != [])
      && (p.result > 0 ==> p.headers == h.Linked() && p.rest == tail && FLV_HEADER_LENGTH + p.result == |Block(h)|)
  {
    hide DecodeBlock;
    BlockBehindFileHeader(h, tail);
    LinkedFields(h);
    TagsRoundTrip(h.Linked(), blank, tail);
    BlockLength(h);
  }

  ghost predicate TagHeaderParsed(result: int, t: Tag, buf: seq<Byte>, t0: Tag, buf0: seq<Byte>) {
    if |buf0| < FLV_TAG_HEADER_LENGTH then
      result == 0 && buf == buf0 && t == t0
    else
      result == FLV_TAG_HEADER_LENGTH && buf == buf0[FLV_TAG_HEADER_LENGTH..]
      && t == t0.(header := buf0[..FLV_TAG_HEADER_LENGTH])
  }

  /** ParseTagHeader: moves 15 bytes from the read buffer into the tag's header. */
  method ParseTagHeader(buffer: Buffer, tag: FlvTag) returns (result: int)
    requires buffer.Valid() && tag.Valid() && buffer != tag.body_
    modifies buffer, tag`header_
    ensures buffer.Valid()
    ensures TagHeaderParsed(result, tag.Value(), buffer.Contents(), old(tag.Value()), old(buffer.Contents()))
  {
    if buffer.ReadableLength() < FLV_TAG_HEADER_LENGTH {
      return 0;
    }
    var parse_result := tag.DecodeTagHander(buffer.Contents());
    if parse_result > 0 {
      buffer.AddReadIndex(parse_result);
    } else {
      return -1;
    }
    return parse_result;
  }

  ghost predicate TagDataParsed(result: int, t: Tag, buf: seq<Byte>, t0: Tag, buf0: seq<Byte>) {
    var remain := Missing(t0.DataSize(), |t0.body|);
    if remain <= |buf0| then
      result == t0.DataSize() && buf == buf0[remain..] && t == t0.(body := t0.body + buf0[..remain])
    else
      result == 0 && buf == [] && t == t0.(body := t0.body + buf0)
  }

  /** ParseTagData: moves the rest of the body, or all there is, from the read buffer into the tag. */
  method ParseTagData(buffer: Buffer, tag: FlvTag) returns (result: int)
    requires buffer.Valid() && tag.Valid() && buffer != tag.body_
    modifies buffer, tag.body_
    ensures buffer.Valid()
    ensures tag.Valid()
    ensures TagDataParsed(result, tag.Value(), buffer.Contents(), old(tag.Value()), old(buffer.Contents()))
  {
    var data_size := tag.GetDataSize();
    var remain_size := Missing(data_size, tag.body_.ReadableLength());
    var buffer_size := buffer.ReadableLength();
    if remain_size <= buffer_size {
      tag.AppendData(buffer.Contents()[..remain_size]);
      buffer.AddReadIndex(remain_size);
    } else {
      tag.AppendData(buffer.Contents());
      buffer.AddReadIndex(buffer_size);
      return 0;
    }
    return data_size;
  }

  /** One header and its data, the common part of ParseScripTag and ParseVideoAudio. */
  method ParseTag(buffer: Buffer, tag: FlvTag) returns (result: int)
    requires buffer.Valid() && tag.Valid() && buffer != tag.body_
    modifies buffer, tag`header_, tag.body_
    ensures buffer.Valid()
    ensures tag.Valid()
    ensures TagParse(result, tag.Value(), buffer.Contents()) == DecodeTag(old(tag.Value()), old(buffer.Contents()))
  {
    var sum_parsed := 0;
    var parsed := ParseTagHeader(buffer, tag);
    if parsed <= 0 {
      return -1;
    }
    sum_parsed := sum_parsed + parsed;
    parsed := ParseTagData(buffer, tag);
    if parsed <= 0 {
      return -1;
    }
    return sum_parsed + parsed;
  }

  /** Appends a tag's header and body. */
  method AppendTag(buffer: Buffer, tag: FlvTag)
    requires buffer.Valid() && tag.Valid() && buffer != tag.body_
    modifies buffer
    ensures buffer.Valid()
    ensures buffer.Contents() == old(buffer.Contents()) + tag.Value().Serialized()
  {
    buffer.AppendData(tag.header_);
    buffer.AppendData(tag.body_.Contents());
  }

  /** FlvHeader::EncodeToBuffer at the write position. */
  method AppendFileHeader(buffer: Buffer)
    requires buffer.Valid() && buffer.WritableLength() >= FLV_HEADER_LENGTH
    modifies buffer
    ensures buffer.Valid()
    ensures buffer.Contents() == old(buffer.Contents()) + DEFAULT_HEADER
  {
    buffer.CopyToWriteBegin(DEFAULT_HEADER);
    buffer.AddWriteIndex(FLV_HEADER_LENGTH);
  }

  class FlvManager {
    const script_tag_: FlvTag
    /** `video_audio_tags[0]` and `video_audio_tags[1]`. */
    const first_tag_: FlvTag
    const second_tag_: FlvTag
    /** The nine bytes of the last file header read: signature, version, flags, header length. */
    var flv_header_: seq<Byte>
    const buffer_: Buffer

    ghost function Repr(): set<object> {
      {this, script_tag_, script_tag_.body_, first_tag_, first_tag_.body_, second_tag_, second_tag_.body_, buffer_}
    }

    /** Whether a buffer, or a tag, is one of this manager's. */
    ghost predicate Uses(b: Buffer) {
      b == script_tag_.body_ || b == first_tag_.body_ || b == second_tag_.body_ || b == buffer_
    }

    ghost predicate UsesTag(t: FlvTag) {
      t == script_tag_ || t == first_tag_ || t == second_tag_
    }

    ghost predicate Valid()
      reads script_tag_.body_, first_tag_.body_, second_tag_.body_, buffer_
    {
      && script_tag_.Valid() && first_tag_.Valid() && second_tag_.Valid() && buffer_.Valid()
      && script_tag_ != first_tag_ && script_tag_ != second_tag_ && first_tag_ != second_tag_
      && script_tag_.body_ != first_tag_.body_ && script_tag_.body_ != second_tag_.body_
      && first_tag_.body_ != second_tag_.body_
      && buffer_ != script_tag_.body_ && buffer_ != first_tag_.body_ && buffer_ != second_tag_.body_
    }

    ghost function Value(): Headers
      requires Valid()
      reads script_tag_, script_tag_.body_, first_tag_, first_tag_.body_, second_tag_, second_tag_.body_, buffer_
    {
      Headers(script_tag_.Value(), first_tag_.Value(), second_tag_.Value())
    }

    constructor ()
      ensures Valid() && fresh(Repr() - {this})
      ensures Value().script.body == Value().first.body == Value().second.body == []
      ensures Value().script.header == Value().first.header == Value().second.header == seq(15, _ => 0)
      ensures buffer_.Contents() == []
    {
      script_tag_ := new FlvTag();
      first_tag_ := new FlvTag();
      second_tag_ := new FlvTag();
      flv_header_ := DEFAULT_HEADER;
      buffer_ := new Buffer(BUFFER_SIZE);
    }

    /** Prints the header block behind what `buffer` holds; 0 and nothing when there is not enough free space. */
    method EncodeHeadersToBuffer(buffer: Buffer) returns (result: int)
      requires Valid() && buffer.Valid() && !Uses(buffer)
      modifies buffer, first_tag_`header_, second_tag_`header_
      ensures Valid() && buffer.Valid()
      ensures var h := old(Value());
        if old(buffer.WritableLength()) < h.BlockSize() then
          result == 0 && Value() == h && buffer.Contents() == old(buffer.Contents())
        else
          result == h.BlockSize() && Value() == h.Linked() && buffer.Contents() == old(buffer.Contents()) + Block(h)
    {
      var script_size := script_tag_.GetCurrentTagSize();
      var first_size := first_tag_.GetCurrentTagSize();
      var second_size := second_tag_.GetCurrentTagSize();
      var data_length := FLV_HEADER_LENGTH + script_size + 4 + first_size + 4 + second_size + 4;
      if buffer.WritableLength() < data_length {
        return 0;
      }
      ghost var h, before := Value(), buffer.Contents();
      ghost var linked := h.Linked();
      AppendFileHeader(buffer);
      AppendTag(buffer, script_tag_);

      first_tag_.SetPreviousTagSize(script_size);
      second_tag_.SetPreviousTagSize(first_size);
      assert Value() == linked;

      AppendTag(buffer, first_tag_);
      AppendTag(buffer, second_tag_);
      BlockParts(h, before);
      return data_length;
    }

    /** FlvCodec::DecodeFileHeader on the read buffer. */
    method ParseHeader() returns (result: int)
      requires Valid()
      modifies this, buffer_
      ensures Valid() && Value() == old(Value())
      ensures var buf := old(buffer_.Contents());
        if |buf| < FLV_HEADER_LENGTH then
          result == 0 && buffer_.Contents() == buf
        else
          result == FLV_HEADER_LENGTH && flv_header_ == buf[..FLV_HEADER_LENGTH]
          && buffer_.Contents() == buf[FLV_HEADER_LENGTH..]
    {
      if buffer_.ReadableLength() < FLV_HEADER_LENGTH {
        return 0;
      }
      flv_header_ := buffer_.Contents()[..FLV_HEADER_LENGTH];
      buffer_.AddReadIndex(FLV_HEADER_LENGTH);
      return FLV_HEADER_LENGTH;
    }

    method ParseScripTag() returns (result: int)
      requires Valid()
      modifies buffer_, script_tag_`header_, script_tag_.body_
      ensures Valid()
      ensures var p := DecodeTag(old(script_tag_.Value()), old(buffer_.Contents()));
        result == p.result && Value() == old(Value()).(script := p.tag) && buffer_.Contents() == p.rest
    {
      result := ParseTag(buffer_, script_tag_);
    }

    method ParseVideoAudio() returns (result: int)
      requires Valid()
      modifies buffer_, first_tag_`header_, first_tag_.body_
      modifies second_tag_`header_, second_tag_.body_
      ensures Valid() && Value().script == old(Value()).script
      ensures PairParse(result, Value().first, Value().second, buffer_.Contents())
        == DecodePair(old(Value()).first, old(Value()).second, old(buffer_.Contents()))
    {
      var parsed := ParseTag(buffer_, first_tag_);
      if parsed <= 0 {
        return -1;
      }
      var sum_parsed := parsed;
      parsed := ParseTag(buffer_, second_tag_);
      if parsed <= 0 {
        return -1;
      }
      return sum_parsed + parsed;
    }
  }
}
