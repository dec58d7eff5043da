/** utils/codec/RtmpCodec: message headers, the message being assembled, and the running clock. */
module RtmpCodec {
  import opened Bytes
  import opened Buffers
  import opened FlvCodec

  const RTMP_OTHER: Byte := 0
  const RTMP_AUDIO: Byte := 8
  const RTMP_VIDEO: Byte := 9
  const RTMP_SCRIPT: Byte := 18

  const FMT0_HEADER_LENGTH := 11
  const FMT1_HEADER_LENGTH := 7
  const FMT2_HEADER_LENGTH := 3
  const FMT3_HEADER_LENGTH := 0
  const RTMPPACK_FMT_MAX := 3

  /** The header fields that decide anything. `csid_`, `fmt_` and `stream_id_` are stored but never read back. */
  datatype PackHeader = PackHeader(timestamp: Three, dataSize: Three, packType: Byte) {
    function Size(): (n: nat)
      ensures n < TWO_TO_24
    {
      U24(dataSize)
    }
  }

  /** A completed message. */
  datatype Message = Message(header: PackHeader, body: seq<Byte>) {
    predicate IsMedia() { header.packType == RTMP_AUDIO || header.packType == RTMP_VIDEO }

    predicate Sized() { header.Size() == |body| }
  }

  /** Unknown message types are all stored as RTMP_OTHER. */
  function PackTypeOf(code: Byte): Byte {
    if code in {8, 9, 18, 2, 3, 4} then code else RTMP_OTHER
  }

  /** The number of header bytes that were understood (0: more are needed), and the fields afterwards. */
  datatype HeaderParse = HeaderParse(length: nat, header: PackHeader)

  function Fmt(b: Byte): nat { b / 64 }

  /** Sections 5.3.1.1 and 5.3.1.2 of the RTMP Specification 1.0, one-byte basic headers only. */
  function ParseHeader(h: PackHeader, data: seq<Byte>): (r: HeaderParse)
    ensures r.length <= |data| && r.length <= 12
    ensures r.length == 0 ==> |data| < 12 && r.header == h
  {
    if data == [] then HeaderParse(0, h)
    else
      match Fmt(data[0])
      case 0 =>
        if |data| - 1 < FMT0_HEADER_LENGTH then HeaderParse(0, h)
        else HeaderParse(12, PackHeader(data[1..4], data[4..7], PackTypeOf(data[7])))
      case 1 =>
        if |data| - 1 < FMT1_HEADER_LENGTH then HeaderParse(0, h)
        else HeaderParse(8, PackHeader(data[1..4], data[4..7], PackTypeOf(data[7])))
      case 2 =>
        if |data| - 1 < FMT2_HEADER_LENGTH then HeaderParse(0, h)
        else HeaderParse(4, h.(timestamp := data[1..4]))
      case _ => HeaderParse(1, h)
  }

  /** The result of RtmpPack::DecodeHeader with all its branches, those that report an error included. */
  function DecodeLength(data: seq<Byte>): int {
    if data == [] then 0
    else
      var fmt := Fmt(data[0]);
      if fmt > RTMPPACK_FMT_MAX then -1
      else if fmt == 3 then FMT3_HEADER_LENGTH + 1
      else
        var result :=
          if fmt == 0 then (if |data| - 1 < FMT0_HEADER_LENGTH then 0 else FMT0_HEADER_LENGTH)
          else if fmt == 1 then (if |data| - 1 < FMT1_HEADER_LENGTH then 0 else FMT1_HEADER_LENGTH)
          else if fmt == 2 then (if |data| - 1 < FMT2_HEADER_LENGTH then 0 else FMT2_HEADER_LENGTH)
          else -1;
        if result <= 0 then result else result + 1
  }

  /** The branches that report an error are dead: two bits have only four values. */
  lemma DecodeNeverFails(h: PackHeader, data: seq<Byte>)
    ensures DecodeLength(data) == ParseHeader(h, data).length >= 0
  {
  }

  /** A complete header is understood in the same way when more bytes follow. */
  lemma ParseHeaderExtends(h: PackHeader, data: seq<Byte>, ext: seq<Byte>)
    requires ParseHeader(h, data).length > 0
    ensures ParseHeader(h, data + ext) == ParseHeader(h, data)
  {
    var all := data + ext;
    assert all[0] == data[0];
    if |data| >= 8 {
      assert all[1..4] == data[1..4] && all[4..7] == data[4..7] && all[7] == data[7];
    } else if |data| >= 4 {
      assert all[1..4] == data[1..4];
    }
  }

  /** `uint32_t` subtraction: wraps when more was received than announced. */
  function Remain(size: nat, received: nat): (n: nat)
    ensures n < TWO_TO_32
    ensures received <= size < TWO_TO_32 ==> n == size - received
  {
    (size - received) % TWO_TO_32
  }

  lemma RemainAfter(size: nat, received: nat, more: nat)
    requires more <= Remain(size, received)
    ensures Remain(size, received + more) == Remain(size, received) - more
  {
    var q := (size - received) / TWO_TO_32;
    assert size - (received + more) == q * TWO_TO_32 + (Remain(size, received) - more);
  }

  class RtmpPack {
    var fmt_: Byte
    var csid_: Byte
    var timestamp_: Three
    var data_size_: Three
    var pack_type_: Byte
    var stream_id_: seq<Byte>
    const buffer_: Buffer

    ghost predicate Valid()
      reads buffer_
    {
      buffer_.Valid()
    }

    function Header(): PackHeader
      reads this
    {
      PackHeader(timestamp_, data_size_, pack_type_)
    }

    function Body(): seq<Byte>
      requires Valid()
      reads buffer_
    {
      buffer_.Contents()
    }

    /** The fields are not initialised by the source: they start as whatever memory held. */
    constructor (garbage: PackHeader)
      ensures Valid() && fresh(buffer_)
      ensures Header() == garbage && Body() == []
    {
      timestamp_, data_size_, pack_type_ := garbage.timestamp, garbage.dataSize, garbage.packType;
      buffer_ := new Buffer();
    }

    method DecodeFmt1(data: seq<Byte>) returns (parsed: int)
      modifies this`timestamp_, this`data_size_, this`pack_type_
      ensures parsed == if |data| < FMT1_HEADER_LENGTH then 0 else FMT1_HEADER_LENGTH
      ensures Header() == if |data| < FMT1_HEADER_LENGTH then old(Header())
                          else PackHeader(data[..3], data[3..6], PackTypeOf(data[6]))
      ensures |data| >= 7 ==> pack_type_ == (if data[6] in {2, 3, 4, 8, 9, 18} then data[6] else 0)
    {
      if |data| < FMT1_HEADER_LENGTH {
        return 0;
      }
      timestamp_ := data[..3];
      data_size_ := data[3..6];
      pack_type_ := PackTypeOf(data[6]);
      return FMT1_HEADER_LENGTH;
    }

    method DecodeFmt0(data: seq<Byte>) returns (parsed: int)
      modifies this`timestamp_, this`data_size_, this`pack_type_, this`stream_id_
      ensures parsed == if |data| < FMT0_HEADER_LENGTH then 0 else FMT0_HEADER_LENGTH
      ensures Header() == if |data| < FMT0_HEADER_LENGTH then old(Header())
                          else PackHeader(data[..3], data[3..6], PackTypeOf(data[6]))
    {
      if |data| < FMT0_HEADER_LENGTH {
        return 0;
      }
      var _ := DecodeFmt1(data);
      stream_id_ := data[7..11];
      return FMT0_HEADER_LENGTH;
    }

    method DecodeFmt2(data: seq<Byte>) returns (parsed: int)
      modifies this`timestamp_
      ensures parsed == if |data| < FMT2_HEADER_LENGTH then 0 else FMT2_HEADER_LENGTH
      ensures Header() == if |data| < FMT2_HEADER_LENGTH then old(Header())
                          else old(Header()).(timestamp := data[..3])
    {
      if |data| < FMT2_HEADER_LENGTH {
        return 0;
      }
      timestamp_ := data[..3];
      return FMT2_HEADER_LENGTH;
    }

    /** The fields and the result; that no error is ever reported is DecodeNeverFails. */
    method DecodeHeader(data: seq<Byte>) returns (parsed: int)
      requires Valid()
      modifies this
      ensures Valid()
      ensures parsed == DecodeLength(data)
      ensures Header() == ParseHeader(old(Header()), data).header
    {
      hide Fmt;
      if |data| == 0 {
        return 0;
      }
      var fmt := Fmt(data[0]);
      csid_ := data[0] % 64;
      if fmt > RTMPPACK_FMT_MAX {
        return -1;
      }
      fmt_ := fmt;
      var result;
      if fmt_ == 0 {
        result := DecodeFmt0(data[1..]);
      } else if fmt_ == 1 {
        result := DecodeFmt1(data[1..]);
      } else if fmt_ == 2 {
        result := DecodeFmt2(data[1..]);
      } else if fmt_ == 3 {
        result := FMT3_HEADER_LENGTH;
        return result + 1;
      } else {
        result := -1;
      }
      return if result <= 0 then result else result + 1;
    }

    function GetBodyDataSize(): nat
      reads this
    {
      Header().Size()
    }

    function GetBodyRemainSize(): nat
      requires Valid()
      reads this, buffer_
    {
      Remain(GetBodyDataSize(), buffer_.ReadableLength())
    }

    method AppendData(data: seq<Byte>)
      requires Valid()
      modifies buffer_
      ensures Valid() && Body() == old(Body()) + data
    {
      buffer_.AppendData(data);
    }
  }

  /** The clock after one more message: `uint32_t` addition. */
  function Tick(clock: nat, m: Message): (n: nat)
    ensures n < TWO_TO_32
  {
    (clock + U24(m.header.timestamp)) % TWO_TO_32
  }

  /** RTMP times are relative to the previous message, FLV times to the first: the codec sums them up. */
  class Codec {
    var timestamp_: nat

    ghost predicate Valid()
      reads this
    {
      timestamp_ < TWO_TO_32
    }

    constructor ()
      ensures Valid() && timestamp_ == 0
    {
      timestamp_ := 0;
    }

    method AddTimeStamp(timestamp: Three)
      requires Valid()
      modifies this
      ensures Valid() && timestamp_ == (old(timestamp_) + U24(timestamp)) % TWO_TO_32
    {
      ghost var t, low, middle := timestamp_, timestamp[2] as int, timestamp[1] as int * 256;
      timestamp_ := (timestamp_ + timestamp[2]) % TWO_TO_32;
      timestamp_ := (timestamp_ + timestamp[1] as int * 256) % TWO_TO_32;
      timestamp_ := (timestamp_ + timestamp[0] as int * 65536) % TWO_TO_32;
      ModAdd(t + low, middle, TWO_TO_32);
      ModAdd(t + low + middle, timestamp[0] as int * 65536, TWO_TO_32);
    }

    method EncodeHeaderToFlvTag(pack: RtmpPack, tag: FlvTag)
      requires Valid() && pack.Valid() && tag.Valid()
      modifies this, tag`header_
      ensures Valid() && timestamp_ == (old(timestamp_) + U24(pack.timestamp_)) % TWO_TO_32
      ensures tag.header_ == old(tag.header_[..4]) + [pack.pack_type_] + pack.data_size_
                                 + BE24(timestamp_ % TWO_TO_24) + old(tag.header_[11..])
    {
      tag.SetTagType(pack.pack_type_);
      tag.SetDataSize(pack.data_size_);
      AddTimeStamp(pack.timestamp_);
      // the union's bytes 2, 1 and 0 on a little-endian machine
      var ts := [timestamp_ / 65536 % 256, timestamp_ / 256 % 256, timestamp_ % 256];
      LowBytes(timestamp_);
      tag.SetTimeStamp(ts);
    }

    /** Fills the tag's header and exchanges the two bodies. */
    method EncodeHeaderAndSwapBuffer(pack: RtmpPack, tag: FlvTag)
      requires Valid() && pack.Valid() && tag.Valid()
      modifies this, tag`header_, tag.body_, pack.buffer_
      ensures Valid() && pack.Valid() && tag.Valid()
      ensures timestamp_ == (old(timestamp_) + U24(pack.timestamp_)) % TWO_TO_32
      ensures tag.header_ == old(tag.header_[..4]) + [pack.pack_type_] + pack.data_size_
                                 + BE24(timestamp_ % TWO_TO_24) + old(tag.header_[11..])
      ensures tag.body_.Contents() == old(pack.Body()) && pack.Body() == old(tag.body_.Contents())
    {
      EncodeHeaderToFlvTag(pack, tag);
      pack.buffer_.SwapBuffer(tag.body_);
    }
  }
}
