/**
 The resumable de-chunker of RtmpManager::ParseData once the three leading messages are in: the
 three-way loop over a moving window of unread bytes, with a 4096-byte chunk counter and a
 `uint32_t` remainder that may wrap.

 Its partner is `Reference`, a decoder of a whole stream that only ever takes complete chunks and
 keeps no counter. The results hold for every byte stream, well-formed or not.
 */
module Dechunker {
  import opened Bytes
  import opened RtmpCodec

  const RTMP_CHUNK_SIZE := 4096

  /** `current_rtmp_pack_`, `read_chunk_size_`, and whether `parsed_status_` is PARSE_RTMP_BODY. */
  datatype Core = Core(header: PackHeader, body: seq<Byte>, inBody: bool, readChunk: nat) {
    function Remaining(): nat { Remain(header.Size(), |body|) }

    /** `chunk_over_`: the rest of the message fits into the chunk that starts here. */
    predicate ChunkOver() { Remaining() <= RTMP_CHUNK_SIZE && readChunk == 0 }

    /** How many bytes the current chunk still lacks. */
    function Need(): nat
      requires readChunk < RTMP_CHUNK_SIZE
    {
      if ChunkOver() then Remaining() else RTMP_CHUNK_SIZE - readChunk
    }

    /** Kept by every call on every stream: nothing that is complete is left waiting. */
    predicate Waiting() {
      && readChunk < RTMP_CHUNK_SIZE
      && (inBody ==> Need() > 0)
      && (!inBody ==> readChunk == 0)
    }
  }

  /** What one call leaves: the new state, the unread bytes, the messages completed. */
  datatype Outcome = Outcome(core: Core, rest: seq<Byte>, done: seq<Message>)

  /** ParseBody, and the hand-over of a completed message. A message of size 0 completes without a trace. */
  function ParseBody(c: Core, buf: seq<Byte>): (r: Outcome)
    requires c.readChunk < RTMP_CHUNK_SIZE
    ensures |r.rest| <= |buf| && |r.done| <= 1
    ensures r.done != [] ==> c.header.Size() > 0 && r.done[0].header == c.header
    ensures r.core.inBody ==> r.done == []
    ensures r.core.readChunk < RTMP_CHUNK_SIZE
  {
    if c.ChunkOver() then
      if |buf| < c.Remaining() then
        Outcome(c.(body := c.body + buf), [], [])
      else
        var body := c.body + buf[..c.Remaining()];
        var next := c.(inBody := false);
        if c.header.Size() > 0 then
          Outcome(next.(body := []), buf[c.Remaining()..], [Message(c.header, body)])
        else
          Outcome(next.(body := body), buf[c.Remaining()..], [])
    else
      var chunk := RTMP_CHUNK_SIZE - c.readChunk;
      if |buf| < chunk then
        Outcome(c.(body := c.body + buf, readChunk := c.readChunk + |buf|), [], [])
      else
        Outcome(c.(body := c.body + buf[..chunk], readChunk := 0, inBody := false), buf[chunk..], [])
  }

  /** The loop of ParseData. It leaves as soon as a round completes no message, even with bytes unread. */
  function ParseLoop(c: Core, buf: seq<Byte>): (r: Outcome)
    requires c.readChunk < RTMP_CHUNK_SIZE
    ensures |r.rest| <= |buf| && r.core.readChunk < RTMP_CHUNK_SIZE
    decreases 2 * |buf| + (if c.inBody then 1 else 0)
  {
    var p := if c.inBody then HeaderParse(0, c.header) else ParseHeader(c.header, buf);
    if !c.inBody && p.length == 0 then
      Outcome(c, buf, [])
    else
      var r := ParseBody(c.(header := p.header, inBody := true), buf[p.length..]);
      if r.done == [] then r
      else
        var next := ParseLoop(r.core, r.rest);
        next.(done := r.done + next.done)
  }

  /** One call of ParseData on the unread bytes. */
  function Call(c: Core, buf: seq<Byte>): (r: Outcome)
    requires c.readChunk < RTMP_CHUNK_SIZE
    ensures |r.rest| <= |buf| && r.core.readChunk < RTMP_CHUNK_SIZE
  {
    if buf == [] then Outcome(c, [], []) else ParseLoop(c, buf)
  }

  // ---------------------------------------------------------------- the reference decoder

  /** All the messages of a stream, and whether no header inside a message announces less than was already received. */
  datatype Decoded = Decoded(messages: seq<Message>, contiguous: bool) {
    function After(done: seq<Message>): Decoded { this.(messages := done + messages) }
  }

  /** Decodes `input` from a chunk boundary on; `partial` is what earlier chunks of the message brought. */
  function Reference(h: PackHeader, partial: seq<Byte>, input: seq<Byte>): Decoded
    decreases |input|, 0
  {
    var p := ParseHeader(h, input);
    if p.length == 0 then Decoded([], true)
    else
      var remain := Remain(p.header.Size(), |partial|);
      var need, last := Min(remain, RTMP_CHUNK_SIZE), remain <= RTMP_CHUNK_SIZE;
      var r := ReferenceChunk(p.header, partial, need, last, input[p.length..]);
      r.(contiguous := r.contiguous && |partial| <= p.header.Size())
  }

  /** Takes the `need` payload bytes of one chunk, or nothing at all when they are not all there. */
  function ReferenceChunk(h: PackHeader, partial: seq<Byte>, need: nat, last: bool, input: seq<Byte>): Decoded
    decreases |input|, 1
  {
    if |input| < need then Decoded([], true)
    else
      var body := partial + input[..need];
      if last && h.Size() > 0 then Reference(h, [], input[need..]).After([Message(h, body)])
      else Reference(h, body, input[need..])
  }

  /** What the reference decoder still gets out of `input` when the de-chunker stands at `c`. */
  function Future(c: Core, input: seq<Byte>): Decoded
    requires c.readChunk < RTMP_CHUNK_SIZE
  {
    if c.inBody then ReferenceChunk(c.header, c.body, c.Need(), c.ChunkOver(), input)
    else Reference(c.header, c.body, input)
  }

  // ---------------------------------------------------------------- one call

  /** Part of a chunk: only the need shrinks. */
  lemma PartialChunkCommutes(c: Core, buf: seq<Byte>, ext: seq<Byte>)
    requires c.readChunk < RTMP_CHUNK_SIZE && c.inBody && |buf| < c.Need()
    ensures var r := ParseBody(c, buf);
      && r.core.Waiting() && r.done == []
      && Future(c, buf + ext) == Future(r.core, r.rest + ext)
  {
    var r := ParseBody(c, buf);
    var k := r.core.Need();
    if c.ChunkOver() {
      RemainAfter(c.header.Size(), |c.body|, |buf|);
    }
    assert r.core.ChunkOver() == c.ChunkOver() && k == c.Need() - |buf| by {
      assert buf == [] ==> r.core == c;
    }
    assert [] + ext == ext;
    if |ext| >= k {
      assert c.body + (buf + ext)[..c.Need()] == r.core.body + ext[..k];
      assert (buf + ext)[c.Need()..] == ext[k..];
    }
  }

  /** A whole chunk: what follows it follows it. */
  lemma WholeChunkCommutes(c: Core, buf: seq<Byte>, ext: seq<Byte>)
    requires c.readChunk < RTMP_CHUNK_SIZE && c.inBody && |buf| >= c.Need()
    ensures var r := ParseBody(c, buf);
      && r.core.Waiting()
      && Future(c, buf + ext) == Future(r.core, r.rest + ext).After(r.done)
  {
    var r := ParseBody(c, buf);
    assert (buf + ext)[..c.Need()] == buf[..c.Need()];
    assert (buf + ext)[c.Need()..] == buf[c.Need()..] + ext;
    assert [] + Future(r.core, r.rest + ext).messages == Future(r.core, r.rest + ext).messages;
  }

  /** The body step commutes with the bytes that are still to come. */
  lemma BodyCommutes(c: Core, buf: seq<Byte>, ext: seq<Byte>)
    requires c.readChunk < RTMP_CHUNK_SIZE && c.inBody
    ensures var r := ParseBody(c, buf);
      && r.core.Waiting()
      && Future(c, buf + ext) == Future(r.core, r.rest + ext).After(r.done)
  {
    if |buf| < c.Need() {
      PartialChunkCommutes(c, buf, ext);
      var f := Future(ParseBody(c, buf).core, ParseBody(c, buf).rest + ext);
      assert [] + f.messages == f.messages;
    } else {
      WholeChunkCommutes(c, buf, ext);
    }
  }

  /** A header that is there reads the same with more bytes behind it. */
  lemma HeaderCommutes(c: Core, buf: seq<Byte>, ext: seq<Byte>)
    requires !c.inBody && c.readChunk == 0
    requires ParseHeader(c.header, buf).length > 0
    ensures var p := ParseHeader(c.header, buf);
      var after := Future(c.(header := p.header, inBody := true), buf[p.length..] + ext);
      && Future(c, buf + ext).messages == after.messages
      && Future(c, buf + ext).contiguous == (after.contiguous && |c.body| <= p.header.Size())
  {
    var p := ParseHeader(c.header, buf);
    ParseHeaderExtends(c.header, buf, ext);
    assert (buf + ext)[p.length..] == buf[p.length..] + ext;
  }

  /** The header half of a round, whether a header is due or not. */
  lemma HeaderHalfCommutes(c: Core, buf: seq<Byte>, ext: seq<Byte>)
    requires c.Waiting() && (c.inBody || ParseHeader(c.header, buf).length > 0)
    ensures var p := if c.inBody then HeaderParse(0, c.header) else ParseHeader(c.header, buf);
      var after := Future(c.(header := p.header, inBody := true), buf[p.length..] + ext);
      && Future(c, buf + ext).messages == after.messages
      && (Future(c, buf + ext).contiguous ==> after.contiguous)
  {
    hide Future, ParseHeader;
    if c.inBody {
      assert c.(header := c.header, inBody := true) == c && buf[0..] == buf;
    } else {
      HeaderCommutes(c, buf, ext);
    }
  }

  lemma RegroupMessages(a: seq<Message>, b: seq<Message>, c: seq<Message>)
    ensures a + b + c == a + (b + c)
  {
  }

  /** Whatever arrives later, a call only moves messages from the future into its result. */
  lemma {:induction false} LoopCommutes(c: Core, buf: seq<Byte>, ext: seq<Byte>)
    requires c.Waiting()
    ensures var r := ParseLoop(c, buf);
      && r.core.Waiting()
      && Future(c, buf + ext).messages == r.done + Future(r.core, r.rest + ext).messages
      && (Future(c, buf + ext).contiguous ==> Future(r.core, r.rest + ext).contiguous)
    decreases 2 * |buf| + (if c.inBody then 1 else 0)
  {
    hide ParseBody, Future, ParseHeader;
    var p := if c.inBody then HeaderParse(0, c.header) else ParseHeader(c.header, buf);
    if c.inBody || p.length > 0 {
      var c1 := c.(header := p.header, inBody := true);
      HeaderHalfCommutes(c, buf, ext);
      BodyCommutes(c1, buf[p.length..], ext);
      var r := ParseBody(c1, buf[p.length..]);
      if r.done != [] {
        LoopCommutes(r.core, r.rest, ext);
        var next := ParseLoop(r.core, r.rest);
        RegroupMessages(r.done, next.done, Future(next.core, next.rest + ext).messages);
      }
    }
  }

  lemma CallCommutes(c: Core, buf: seq<Byte>, ext: seq<Byte>)
    requires c.Waiting()
    ensures var r := Call(c, buf);
      && r.core.Waiting()
      && Future(c, buf + ext).messages == r.done + Future(r.core, r.rest + ext).messages
      && (Future(c, buf + ext).contiguous ==> Future(r.core, r.rest + ext).contiguous)
  {
    if buf != [] {
      LoopCommutes(c, buf, ext);
    }
  }

  /** A call that changes nothing is a call for which nothing is left to decode. */
  predicate Drained(c: Core, buf: seq<Byte>)
    requires c.readChunk < RTMP_CHUNK_SIZE
  {
    Call(c, buf) == Outcome(c, buf, [])
  }

  lemma DrainedHasNoFuture(c: Core, buf: seq<Byte>)
    requires c.Waiting() && Drained(c, buf)
    ensures Future(c, buf).messages == []
  {
  }

  /** A call that changes anything brings the next standstill closer. */
  function Distance(c: Core, buf: seq<Byte>): nat {
    2 * |buf| + (if c.inBody then 1 else 0)
  }

  lemma CallMakesProgress(c: Core, buf: seq<Byte>)
    requires c.Waiting()
    ensures Drained(c, buf) || Distance(Call(c, buf).core, Call(c, buf).rest) < Distance(c, buf)
  {
    if buf != [] {
      var p := if c.inBody then HeaderParse(0, c.header) else ParseHeader(c.header, buf);
      if c.inBody || p.length > 0 {
        var r := ParseBody(c.(header := p.header, inBody := true), buf[p.length..]);
      }
    }
  }
}
