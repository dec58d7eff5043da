/** utils/Buffer: a growable byte array with a read and a write index, refining a byte queue. */
module Buffers {
  import opened Bytes

  const DEFAULT_BUFFER_SIZE := 4096
  const IDX_BEGIN := 8

  /** What a non-blocking read(2) finds: bytes already queued by the peer, the end of the stream, or an error. */
  datatype Incoming = Data(bytes: seq<Byte>) | EndOfStream | ReadError

  /** One byte more is moved towards the front, and what is still to be moved is left alone. */
  lemma MoveOne(s: seq<Byte>, before: seq<Byte>, to: nat, from: nat, i: nat)
    requires to <= from && from + i < |s| == |before|
    requires s[to..to + i] == before[from..from + i] && s[from + i..] == before[from + i..]
    ensures var s' := s[to + i := s[from + i]];
      s'[to..to + i + 1] == before[from..from + i + 1] && s'[from + i + 1..] == before[from + i + 1..]
  {
    var s' := s[to + i := s[from + i]];
    assert s[from + i] == s[from + i..][0] == before[from + i];
    assert s'[to..to + i + 1] == s[to..to + i] + [s[from + i]];
    assert s'[from + i + 1..] == s[from + i..][1..];
    assert before[from + i + 1..] == before[from + i..][1..];
  }

  class Buffer {
    /** The vector's storage. */
    var buffer_: seq<Byte>
    var read_idx_: nat
    var write_idx_: nat
    var sum_read_: nat
    var sum_write_: nat

    ghost predicate Valid()
      reads this
    {
      && IDX_BEGIN <= read_idx_ <= write_idx_ <= |buffer_|
      && sum_write_ - sum_read_ == write_idx_ - read_idx_
    }

    function ReadableLength(): nat
      requires read_idx_ <= write_idx_
      reads this
    {
      write_idx_ - read_idx_
    }

    /** The queue: the unread bytes, oldest first. */
    function Contents(): (q: seq<Byte>)
      requires Valid()
      reads this
      ensures |q| == ReadableLength()
    {
      buffer_[read_idx_..write_idx_]
    }

    /** What the queue could hold without growing. */
    ghost function Capacity(): nat
      requires Valid()
      reads this
    {
      |buffer_| - IDX_BEGIN
    }

    function WritableLength(): nat
      requires Valid()
      reads this
    {
      |buffer_| - write_idx_
    }

    constructor (size: nat := DEFAULT_BUFFER_SIZE)
      ensures Valid()
      ensures Contents() == [] && Capacity() == WritableLength() == size
      ensures sum_read_ == sum_write_ == 0
    {
      buffer_ := seq(size + IDX_BEGIN, _ => 0);
      read_idx_, write_idx_ := IDX_BEGIN, IDX_BEGIN;
      sum_read_, sum_write_ := 0, 0;
    }

    /** Takes over `index` bytes that were stored behind the write index. */
    method AddWriteIndex(index: nat)
      requires Valid() && index <= WritableLength()
      modifies this
      ensures Valid() && Capacity() == old(Capacity())
      ensures Contents() == old(Contents() + buffer_[write_idx_..write_idx_ + index])
      ensures sum_write_ == old(sum_write_) + index && sum_read_ == old(sum_read_)
    {
      sum_write_ := sum_write_ + index;
      write_idx_ := write_idx_ + index;
    }

    /** Drops `index` bytes, or all of them when fewer are left. */
    method AddReadIndex(index: nat)
      requires Valid()
      modifies this
      ensures Valid() && Capacity() == old(Capacity())
      ensures Contents() == old(Contents())[Min(index, |old(Contents())|)..]
      ensures sum_read_ == old(sum_read_) + Min(index, |old(Contents())|) && sum_write_ == old(sum_write_)
    {
      if index > ReadableLength() {
        sum_read_ := sum_read_ + ReadableLength();
        read_idx_ := read_idx_ + ReadableLength();
      } else {
        sum_read_ := sum_read_ + index;
        read_idx_ := read_idx_ + index;
      }
    }

    method DropAllData()
      requires Valid()
      modifies this
      ensures Valid() && Capacity() == old(Capacity()) && Contents() == []
      ensures sum_read_ == sum_write_ == old(sum_write_)
    {
      AddReadIndex(ReadableLength());
    }

    /** Moves the unread bytes to the front; source and target may overlap. */
    method AdjustBuffer()
      requires Valid()
      modifies this
      ensures Valid() && Capacity() == old(Capacity())
      ensures Contents() == old(Contents()) && read_idx_ == IDX_BEGIN
      ensures sum_read_ == old(sum_read_) && sum_write_ == old(sum_write_)
    {
      var readable_length := ReadableLength();
      ghost var before := buffer_;
      var i := 0;
      while i < readable_length
        invariant 0 <= i <= readable_length && |buffer_| == |before|
        invariant buffer_[IDX_BEGIN..IDX_BEGIN + i] == before[read_idx_..read_idx_ + i]
        invariant buffer_[read_idx_ + i..] == before[read_idx_ + i..]
        modifies `buffer_
      {
        MoveOne(buffer_, before, IDX_BEGIN, read_idx_, i);
        buffer_ := buffer_[IDX_BEGIN + i := buffer_[read_idx_ + i]];
        i := i + 1;
      }
      read_idx_ := IDX_BEGIN;
      write_idx_ := IDX_BEGIN + readable_length;
    }

    method Reset()
      requires Valid()
      modifies this
      ensures Valid() && Capacity() == old(Capacity()) && Contents() == []
      ensures sum_read_ == sum_write_ == 0
    {
      read_idx_, write_idx_ := IDX_BEGIN, IDX_BEGIN;
      sum_read_, sum_write_ := 0, 0;
    }

    /** `vector::resize(new_size + IDX_BEGIN)`; the callers only ever grow the vector. */
    method ReSize(new_size: nat)
      requires Valid() && |buffer_| <= new_size + IDX_BEGIN
      modifies `buffer_
      ensures Valid() && Capacity() == new_size
      ensures Contents() == old(Contents())
    {
      buffer_ := buffer_ + seq(new_size + IDX_BEGIN - |buffer_|, _ => 0);
    }

    /** `memcpy(WriteBegin(), data, length)`: stores bytes behind the write index without claiming them. */
    method CopyToWriteBegin(data: seq<Byte>)
      requires Valid() && |data| <= WritableLength()
      modifies `buffer_
      ensures Valid() && Capacity() == old(Capacity()) && Contents() == old(Contents())
      ensures buffer_[write_idx_..write_idx_ + |data|] == data
    {
      buffer_ := buffer_[..write_idx_] + data + buffer_[write_idx_ + |data|..];
    }

    /** Enqueues `data`, compacting first and growing only when it does not fit. */
    method AppendData(data: seq<Byte>)
      requires Valid()
      modifies this
      ensures Valid()
      ensures Contents() == old(Contents()) + data
      ensures sum_write_ == old(sum_write_) + |data| && sum_read_ == old(sum_read_)
      ensures |Contents()| <= old(Capacity()) ==> Capacity() == old(Capacity())
    {
      AdjustBuffer();
      if |data| > WritableLength() {
        var remain := |data| - WritableLength();
        ReSize(|buffer_| + remain);
      }
      CopyToWriteBegin(data);
      AddWriteIndex(|data|);
    }

    /** One read(2) into the free space; returns 0 at the end of the stream, but also when no space is left. */
    method ReadFromSockfd(incoming: Incoming) returns (result: int)
      requires Valid()
      requires incoming.Data? ==> incoming.bytes != []
      modifies this
      ensures Valid() && Capacity() == old(Capacity())
      ensures sum_read_ == old(sum_read_)
      ensures incoming.ReadError? ==> result == -1
      ensures incoming.EndOfStream? ==> result == 0
      ensures incoming.Data? ==> result == Min(|incoming.bytes|, Capacity() - |old(Contents())|)
      ensures Contents() == old(Contents()) + if result > 0 then incoming.bytes[..result] else []
    {
      AdjustBuffer();
      match incoming {
        case ReadError => result := -1;
        case EndOfStream => result := 0;
        case Data(bytes) =>
          result := Min(|bytes|, WritableLength());
          CopyToWriteBegin(bytes[..result]);
          if result <= 0 {
            return;
          }
          AddWriteIndex(result);
      }
    }

    method ReadAllAsString() returns (result: seq<Byte>)
      requires Valid()
      modifies this
      ensures Valid() && Capacity() == old(Capacity())
      ensures result == old(Contents()) && Contents() == []
      ensures sum_read_ == sum_write_ == old(sum_write_)
    {
      result := Contents();
      AddReadIndex(ReadableLength());
    }

    /** Exchanges storage, indices and counters with `buffer`. */
    method SwapBuffer(buffer: Buffer)
      requires Valid() && buffer.Valid()
      modifies this, buffer
      ensures Valid() && buffer.Valid()
      ensures Contents() == old(buffer.Contents()) && buffer.Contents() == old(Contents())
      ensures Capacity() == old(buffer.Capacity()) && buffer.Capacity() == old(Capacity())
      ensures sum_read_ == old(buffer.sum_read_) && buffer.sum_read_ == old(sum_read_)
    {
      buffer_, buffer.buffer_ := buffer.buffer_, buffer_;
      read_idx_, buffer.read_idx_ := buffer.read_idx_, read_idx_;
      write_idx_, buffer.write_idx_ := buffer.write_idx_, write_idx_;
      sum_write_, buffer.sum_write_ := buffer.sum_write_, sum_write_;
      sum_read_, buffer.sum_read_ := buffer.sum_read_, sum_read_;
    }
  }
}
