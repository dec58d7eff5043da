/** utils/codec/FlvCodec: one FLV tag, its serialised 15-byte header and its body. */
module FlvCodec {
  import opened Bytes
  import opened Buffers

  const FLV_TAG_HEADER_LENGTH := 15
  const FLV_HEADER_LENGTH := 9

  /** The file header: "FLV", version 1, audio and video present, header length 9. */
  const DEFAULT_HEADER: seq<Byte> := [0x46, 0x4C, 0x56, 0x01, 0x05, 0x00, 0x00, 0x00, 0x09]

  /** The value of a tag. The header holds PreviousTagSize (4 bytes), the type (1), DataSize (3),
      the time (3), its extension (1) and the stream id (3). */
  datatype Tag = Tag(header: TagHeader, body: seq<Byte>) {
    function PreviousTagSize(): nat { U32(header[..4]) }
    function Kind(): Byte { header[4] }
    function DataSize(): nat { U24(header[5..8]) }
    function Time(): nat { U24(header[8..11]) }

    /** The size that the next tag announces: everything but PreviousTagSize. */
    function CurrentTagSize(): (n: nat)
      ensures n < TWO_TO_32
    {
      11 + DataSize()
    }

    function WithPrevious(n: nat): Tag
      requires n < TWO_TO_32
    {
      Tag(BE32(n) + header[4..], body)
    }

    /** The announced and the carried number of bytes agree. */
    predicate Sized() { DataSize() == |body| }

    /** The bytes of the tag in a file or stream. */
    function Serialized(): seq<Byte> { header + body }
  }

  type TagHeader = s: seq<Byte> | |s| == FLV_TAG_HEADER_LENGTH witness seq(FLV_TAG_HEADER_LENGTH, _ => 0)

  /** Rewriting PreviousTagSize changes nothing else. */
  lemma WithPreviousFields(t: Tag, n: nat)
    requires n < TWO_TO_32
    ensures var t' := t.WithPrevious(n);
      && t'.PreviousTagSize() == n
      && t'.header[4..] == t.header[4..] && t'.body == t.body
      && t'.Kind() == t.Kind() && t'.DataSize() == t.DataSize() && t'.Time() == t.Time()
  {
    var h := t.WithPrevious(n).header;
    U32OfBE32(n);
    assert h[..4] == BE32(n) && h[4..] == t.header[4..];
    assert h[5..8] == h[4..][1..4] == t.header[5..8] && h[8..11] == h[4..][4..7] == t.header[8..11];
  }

  /** The header that a tag gets when it is built from a message. */
  function HeaderOf(previous: nat, kind: Byte, dataSize: Three, time: nat): TagHeader
    requires previous < TWO_TO_32 && time < TWO_TO_24
  {
    BE32(previous) + [kind] + dataSize + BE24(time) + [0, 0, 0, 0]
  }

  lemma HeaderOfFields(previous: nat, kind: Byte, dataSize: Three, time: nat, body: seq<Byte>)
    requires previous < TWO_TO_32 && time < TWO_TO_24
    ensures var t := Tag(HeaderOf(previous, kind, dataSize, time), body);
            && t.PreviousTagSize() == previous && t.Kind() == kind
            && t.DataSize() == U24(dataSize) && t.Time() == time && t.header[11..] == [0, 0, 0, 0]
  {
    var h := HeaderOf(previous, kind, dataSize, time);
    assert h[..4] == BE32(previous) && h[5..8] == dataSize && h[8..11] == BE24(time);
    U32OfBE32(previous);
    U24OfBE24(time);
  }

  class FlvTag {
    /** `char header_[15]`: the header is kept serialised, because it is copied to many viewers. */
    var header_: TagHeader
    const body_: Buffer

    ghost predicate Valid()
      reads body_
    {
      body_.Valid()
    }

    ghost function Value(): Tag
      requires Valid()
      reads this, body_
    {
      Tag(header_, body_.Contents())
    }

    constructor ()
      ensures Valid() && fresh(body_)
      ensures Value() == Tag(seq(FLV_TAG_HEADER_LENGTH, _ => 0), [])
    {
      header_ := seq(FLV_TAG_HEADER_LENGTH, _ => 0);
      body_ := new Buffer();
    }

    method SetTagType(tag_type: Byte)
      modifies `header_
      ensures header_ == old(header_)[4 := tag_type]
    {
      header_ := header_[4 := tag_type];
    }

    method SetDataSize(data_size: Three)
      modifies `header_
      ensures header_ == old(header_[..5]) + data_size + old(header_[8..])
    {
      header_ := header_[5 := data_size[0]][6 := data_size[1]][7 := data_size[2]];
    }

    method SetTimeStamp(timestamp: Three)
      modifies `header_
      ensures header_ == old(header_[..8]) + timestamp + old(header_[11..])
    {
      header_ := header_[8 := timestamp[0]][9 := timestamp[1]][10 := timestamp[2]];
    }

    /** Stores the size big-endian, whatever was there before. */
    method SetPreviousTagSize(previous_tag_size: nat)
      requires Valid() && previous_tag_size < TWO_TO_32
      modifies `header_
      ensures Value() == old(Value()).WithPrevious(previous_tag_size)
    {
      var bytes := BE32(previous_tag_size);
      header_ := header_[0 := bytes[0]][1 := bytes[1]][2 := bytes[2]][3 := bytes[3]];
      assert header_ == bytes + old(header_)[4..];
    }

    method GetTagType() returns (kind: Byte)
      requires Valid()
      ensures kind == Value().Kind()
    {
      kind := header_[4];
    }

    method GetDataSize() returns (size: nat)
      requires Valid()
      ensures size == Value().DataSize()
    {
      size := header_[5] as int * 65536 + header_[6] as int * 256 + header_[7] as int;
    }

    method GetCurrentTagSize() returns (size: nat)
      requires Valid()
      ensures size == Value().CurrentTagSize()
    {
      var data_size := GetDataSize();
      size := FLV_TAG_HEADER_LENGTH - 4 + data_size;
    }

    method AppendData(data: seq<Byte>)
      requires Valid()
      modifies body_
      ensures Valid()
      ensures Value() == old(Value()).(body := old(Value()).body + data)
    {
      body_.AppendData(data);
    }

    /** Copies a serialised header over this one; 0 when fewer than 15 bytes are there. */
    method DecodeTagHander(data: seq<Byte>) returns (parsed: int)
      modifies `header_
      ensures |data| < FLV_TAG_HEADER_LENGTH ==> parsed == 0 && header_ == old(header_)
      ensures |data| >= FLV_TAG_HEADER_LENGTH ==>
        parsed == FLV_TAG_HEADER_LENGTH && header_ == data[..FLV_TAG_HEADER_LENGTH]
    {
      if |data| < FLV_TAG_HEADER_LENGTH {
        return 0;
      }
      header_ := data[..FLV_TAG_HEADER_LENGTH];
      return FLV_TAG_HEADER_LENGTH;
    }
  }
}
