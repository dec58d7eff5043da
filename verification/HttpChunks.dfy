/** HTTP chunked coding (section 4.1 of RFC 7230) as the viewers see it: the framing of tags, and a client's decoder. */
module HttpChunks {
  import opened Bytes
  import opened Format

  const CRLF: seq<Byte> := [13, 10]

  /** A payload between its size in hexadecimal and a line end. */
  function Frame(payload: seq<Byte>): seq<Byte> {
    Ascii(ToHexStringWithCrlf(|payload|)) + payload + CRLF
  }

  // ---------------------------------------------------------------- the client's decoder

  function HexValue(b: Byte): (v: int)
    ensures -1 <= v < 16
  {
    if 48 <= b <= 57 then b - 48 else if 97 <= b <= 102 then b - 87 else if 65 <= b <= 70 then b - 55 else -1
  }

  datatype SizeLine = Incomplete | SizeLine(size: nat, length: nat)

  /** Reads hexadecimal digits up to a line end; `size` and `length` count what was read before. */
  function ReadSize(s: seq<Byte>, size: nat, length: nat): (r: SizeLine)
    ensures r.SizeLine? ==> length + 2 <= r.length <= length + |s|
  {
    if s == [] then Incomplete
    else if HexValue(s[0]) >= 0 then ReadSize(s[1..], size * 16 + HexValue(s[0]), length + 1)
    else if length > 0 && |s| >= 2 && s[0] == 13 && s[1] == 10 then SizeLine(size, length + 2)
    else Incomplete
  }

  /** A size line with a positive size, that many bytes, and a line end. */
  predicate ChunkThere(s: seq<Byte>) {
    var line := ReadSize(s, 0, 0);
    line.SizeLine? && line.size > 0 && |s| >= line.length + line.size + 2
    && s[line.length + line.size] == 13 && s[line.length + line.size + 1] == 10
  }

  /** The data of all complete chunks in front of the last-chunk or of the first incomplete one. */
  function Unchunk(s: seq<Byte>): seq<Byte> {
    if !ChunkThere(s) then []
    else
      var line := ReadSize(s, 0, 0);
      s[line.length..line.length + line.size] + Unchunk(s[line.length + line.size + 2..])
  }

  // ---------------------------------------------------------------- framing is inverted

  lemma DigitValue(d: nat)
    requires d < 16
    ensures HexValue(HEX_DIGITS[d] as int % 256) == d
  {
    assert HEX_DIGITS[d] as int == if d < 10 then 48 + d else 87 + d;
  }

  function Digit(d: nat): seq<Byte>
    requires d < 16
  {
    [HEX_DIGITS[d] as int % 256]
  }

  lemma ReadsDigit(d: nat, tail: seq<Byte>, size: nat, length: nat)
    requires d < 16
    ensures ReadSize(Digit(d) + tail, size, length) == ReadSize(tail, size * 16 + d, length + 1)
  {
    DigitValue(d);
    assert (Digit(d) + tail)[1..] == tail;
  }

  lemma AsciiOfDigits(n: nat)
    requires n >= 16
    ensures Ascii(ToHexString(n)) == Ascii(ToHexString(n / 16)) + Digit(n % 16)
  {
  }

  /** The decoder reads every size that ToHexString prints. */
  lemma {:induction false} ReadsPrintedSize(n: nat, tail: seq<Byte>, length: nat)
    ensures ReadSize(Ascii(ToHexString(n)) + tail, 0, length) == ReadSize(tail, n, length + |ToHexString(n)|)
  {
    hide ReadSize;
    if n < 16 {
      ReadsDigit(n, tail, 0, length);
      assert Ascii(ToHexString(n)) == Digit(n);
    } else {
      AsciiOfDigits(n);
      Regroup3(Ascii(ToHexString(n / 16)), Digit(n % 16), tail);
      ReadsPrintedSize(n / 16, Digit(n % 16) + tail, length);
      ReadsDigit(n % 16, tail, n / 16, length + |ToHexString(n / 16)|);
    }
  }

  lemma AsciiLine(s: string)
    ensures Ascii(s + "\r\n") == Ascii(s) + CRLF
  {
  }

  lemma FrameShape(payload: seq<Byte>, tail: seq<Byte>)
    ensures Frame(payload) + tail == Ascii(ToHexString(|payload|)) + (CRLF + (payload + (CRLF + tail)))
  {
    AsciiLine(ToHexString(|payload|));
    Regroup5(Ascii(ToHexString(|payload|)), CRLF, payload, CRLF, tail);
  }

  lemma ReadsLineEnd(rest: seq<Byte>, size: nat, length: nat)
    requires length > 0
    ensures ReadSize(CRLF + rest, size, length) == SizeLine(size, length + 2)
  {
    assert (CRLF + rest)[..2] == CRLF;
  }

  lemma PayloadShape(payload: seq<Byte>, tail: seq<Byte>)
    ensures var rest, n := payload + (CRLF + tail), |payload|;
      rest[0..n] == payload && rest[n..n + 2] == CRLF && rest[n + 2..] == tail
  {
  }

  /** One step of the decoder, on a chunk whose parts are known. */
  lemma UnchunkParts(s: seq<Byte>, line: SizeLine, payload: seq<Byte>, tail: seq<Byte>)
    requires ReadSize(s, 0, 0) == line && line.SizeLine? && line.size == |payload| > 0
    requires |s| == line.length + |payload| + 2 + |tail|
    requires s[line.length..line.length + |payload|] == payload
    requires s[line.length + |payload|..line.length + |payload| + 2] == CRLF
    requires s[line.length + |payload| + 2..] == tail
    ensures Unchunk(s) == payload + Unchunk(tail)
  {
    hide ReadSize;
  }

  /** A decoder gets a framed payload back, and goes on behind it; no nonempty payload ends the stream. */
  lemma UnchunkFrame(payload: seq<Byte>, tail: seq<Byte>)
    requires payload != []
    ensures Unchunk(Frame(payload) + tail) == payload + Unchunk(tail)
  {
    hide ReadSize, Unchunk, ToHexString;
    var hex := Ascii(ToHexString(|payload|));
    var front, rest, n := hex + CRLF, payload + (CRLF + tail), |payload|;
    FrameShape(payload, tail);
    Regroup3(hex, CRLF, rest);
    ReadsPrintedSize(n, CRLF + rest, 0);
    ReadsLineEnd(rest, n, |hex|);
    PayloadShape(payload, tail);
    SliceBehind(front, rest, 0, n);
    SliceBehind(front, rest, n, n + 2);
    UnchunkParts(front + rest, SizeLine(n, |front|), payload, tail);
  }

  function Frames(payloads: seq<seq<Byte>>): seq<Byte> {
    if payloads == [] then [] else Frame(payloads[0]) + Frames(payloads[1..])
  }

  lemma {:induction false} FramesAppend(a: seq<seq<Byte>>, b: seq<seq<Byte>>)
    ensures Frames(a + b) == Frames(a) + Frames(b)
  {
    if a == [] {
      assert a + b == b;
    } else {
      assert (a + b)[0] == a[0] && (a + b)[1..] == a[1..] + b;
      FramesAppend(a[1..], b);
    }
  }

  /** The chunks of any list of nonempty payloads decode to their concatenation. */
  lemma {:induction false} UnchunkFrames(payloads: seq<seq<Byte>>)
    requires forall i :: 0 <= i < |payloads| ==> payloads[i] != []
    ensures Unchunk(Frames(payloads)) == Concat(payloads)
  {
    if payloads != [] {
      UnchunkFrame(payloads[0], Frames(payloads[1..]));
      UnchunkFrames(payloads[1..]);
    }
  }

  // ---------------------------------------------------------------- a client that has part of the bytes

  lemma {:induction false} ReadSizeExtends(s: seq<Byte>, ext: seq<Byte>, size: nat, length: nat)
    requires ReadSize(s, size, length).SizeLine?
    ensures ReadSize(s + ext, size, length) == ReadSize(s, size, length)
  {
    assert (s + ext)[0] == s[0];
    if HexValue(s[0]) >= 0 {
      assert (s + ext)[1..] == s[1..] + ext;
      ReadSizeExtends(s[1..], ext, size * 16 + HexValue(s[0]), length + 1);
    } else {
      assert (s + ext)[..2] == s[..2];
    }
  }

  lemma ChunkExtends(s: seq<Byte>, ext: seq<Byte>)
    requires ChunkThere(s)
    ensures var line := ReadSize(s, 0, 0);
      var payload, tail := s[line.length..line.length + line.size], s[line.length + line.size + 2..];
      Unchunk(s) == payload + Unchunk(tail) && Unchunk(s + ext) == payload + Unchunk(tail + ext)
  {
    hide ReadSize, Unchunk;
    var line := ReadSize(s, 0, 0);
    var end := line.length + line.size;
    ReadSizeExtends(s, ext, 0, 0);
    SliceWithin(s, ext, line.length, end);
    SliceWithin(s, ext, end, end + 2);
    UnchunkParts(s, line, s[line.length..end], s[end + 2..]);
    UnchunkParts(s + ext, line, s[line.length..end], s[end + 2..] + ext);
  }

  lemma UnchunkStops(s: seq<Byte>)
    requires !ChunkThere(s)
    ensures Unchunk(s) == []
  {
  }

  /** What a client decodes from the bytes it has is a prefix of what it decodes from more bytes. */
  lemma {:induction false} UnchunkExtends(s: seq<Byte>, ext: seq<Byte>)
    ensures Unchunk(s) <= Unchunk(s + ext)
    decreases |s|
  {
    hide ReadSize, Unchunk;
    if ChunkThere(s) {
      var line := ReadSize(s, 0, 0);
      ChunkExtends(s, ext);
      UnchunkExtends(s[line.length + line.size + 2..], ext);
    } else {
      UnchunkStops(s);
    }
  }
}
