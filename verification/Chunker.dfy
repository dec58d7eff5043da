/** The other end of the wire: a chunker that prints messages, and the round trip through the de-chunker. */
module Chunker {
  import opened Bytes
  import opened RtmpCodec
  import opened Dechunker
  import opened DechunkerRuns

  /** The sender's freedom for one message: header format, chunk stream id, raw type code, message stream id. */
  datatype Choice = Choice(fmt: nat, csid: nat, code: Byte, streamId: seq<Byte>)

  /** A header format may leave out only what the previous message of the stream said. */
  predicate Allowed(previous: PackHeader, m: Message, choice: Choice) {
    && choice.fmt < 4 && choice.csid < 64 && |choice.streamId| == 4
    && PackTypeOf(choice.code) == m.header.packType
    && (choice.fmt == 2 ==> m.header.(timestamp := previous.timestamp) == previous)
    && (choice.fmt == 3 ==> m.header == previous)
    && m.Sized()
  }

  function PrintHeader(m: Message, choice: Choice): seq<Byte>
    requires choice.fmt < 4 && choice.csid < 64
  {
    var basic: seq<Byte> := [choice.fmt * 64 + choice.csid];
    match choice.fmt
    case 0 => basic + m.header.timestamp + m.header.dataSize + [choice.code] + choice.streamId
    case 1 => basic + m.header.timestamp + m.header.dataSize + [choice.code]
    case 2 => basic + m.header.timestamp
    case _ => basic
  }

  /** The body in pieces of 4096 bytes, each but the first behind a one-byte format-3 header. */
  function PrintBody(body: seq<Byte>, csid: nat): seq<Byte>
    requires csid < 64
    decreases |body|
  {
    if |body| <= RTMP_CHUNK_SIZE then body
    else body[..RTMP_CHUNK_SIZE] + [192 + csid] + PrintBody(body[RTMP_CHUNK_SIZE..], csid)
  }

  function PrintMessage(m: Message, choice: Choice): seq<Byte>
    requires choice.fmt < 4 && choice.csid < 64
  {
    PrintHeader(m, choice) + PrintBody(m.body, choice.csid)
  }

  /** A message in one piece behind a header that says everything. */
  predicate Unsplit(m: Message, choice: Choice) {
    && choice.fmt <= 1 && choice.csid < 64 && |choice.streamId| == 4
    && PackTypeOf(choice.code) == m.header.packType && m.Sized()
  }

  function PrintUnsplit(m: Message, choice: Choice): seq<Byte>
    requires choice.fmt <= 1 && choice.csid < 64
  {
    PrintHeader(m, choice) + m.body
  }

  lemma HeaderAlone(pack: PackHeader, m: Message, choice: Choice)
    requires Unsplit(m, choice)
    ensures var header := PrintHeader(m, choice);
      |header| > 0 && ParseHeader(pack, header) == HeaderParse(|header|, m.header)
  {
    var header := PrintHeader(m, choice);
    assert header[1..4] == m.header.timestamp && header[4..7] == m.header.dataSize && header[7] == choice.code;
  }

  /** Whatever the pack held before, and whatever follows. */
  lemma FullHeader(pack: PackHeader, m: Message, choice: Choice, tail: seq<Byte>)
    requires Unsplit(m, choice)
    ensures var printed, header := PrintUnsplit(m, choice) + tail, PrintHeader(m, choice);
      && |header| > 0 && ParseHeader(pack, printed) == HeaderParse(|header|, m.header)
      && printed[|header|..] == m.body + tail
  {
    var header := PrintHeader(m, choice);
    HeaderAlone(pack, m, choice);
    ParseHeaderExtends(pack, header, m.body + tail);
    Regroup3(header, m.body, tail);
    FrontAndRest(header, m.body + tail);
  }

  predicate AllAllowed(previous: PackHeader, messages: seq<Message>, choices: seq<Choice>)
    decreases |messages|
  {
    |messages| == |choices| &&
    (messages == [] ||
      (Allowed(previous, messages[0], choices[0])
       && AllAllowed(messages[0].header, messages[1..], choices[1..])))
  }

  function Print(previous: PackHeader, messages: seq<Message>, choices: seq<Choice>): seq<Byte>
    requires AllAllowed(previous, messages, choices)
    decreases |messages|
  {
    if messages == [] then []
    else
      PrintMessage(messages[0], choices[0])
      + Print(messages[0].header, messages[1..], choices[1..])
  }

  /** A message of size 0 is parsed, but nobody is told. */
  function Full(messages: seq<Message>): seq<Message> {
    if messages == [] then []
    else (if messages[0].body == [] then [] else [messages[0]]) + Full(messages[1..])
  }

  /** The header the decoder holds after the messages: the last one. */
  function Last(previous: PackHeader, messages: seq<Message>): PackHeader {
    if messages == [] then previous else messages[|messages| - 1].header
  }

  lemma HeaderRoundTrip(previous: PackHeader, m: Message, choice: Choice, tail: seq<Byte>)
    requires Allowed(previous, m, choice)
    ensures ParseHeader(previous, PrintHeader(m, choice) + tail)
         == HeaderParse(|PrintHeader(m, choice)|, m.header)
    ensures PrintHeader(m, choice) != []
  {
    var printed := PrintHeader(m, choice);
    assert ParseHeader(previous, printed) == HeaderParse(|printed|, m.header) by {
      if choice.fmt <= 1 {
        assert printed[1..4] == m.header.timestamp && printed[4..7] == m.header.dataSize && printed[7] == choice.code;
      } else if choice.fmt == 2 {
        assert printed[1..4] == m.header.timestamp;
      }
    }
    ParseHeaderExtends(previous, printed, tail);
  }

  lemma SplitBody(partial: seq<Byte>, body: seq<Byte>)
    requires |body| > RTMP_CHUNK_SIZE
    ensures partial + body[..RTMP_CHUNK_SIZE] + body[RTMP_CHUNK_SIZE..] == partial + body
  {
  }

  /** A format-3 header continues the message under the header it already has. */
  lemma FormatThree(h: PackHeader, partial: seq<Byte>, csid: nat, rest: seq<Byte>)
    requires csid < 64 && |partial| < h.Size()
    ensures var remain := h.Size() - |partial|;
      Reference(h, partial, [192 + csid] + rest)
      == ReferenceChunk(h, partial, Min(remain, RTMP_CHUNK_SIZE), remain <= RTMP_CHUNK_SIZE, rest)
  {
    assert ([192 + csid] + rest)[1..] == rest;
  }

  /** The reference decoder reads a printed body back, whatever part of it came in earlier chunks. */
  lemma {:induction false} BodyRoundTrip(h: PackHeader, partial: seq<Byte>, body: seq<Byte>, csid: nat, tail: seq<Byte>)
    requires csid < 64 && body != [] && |partial| + |body| == h.Size()
    ensures var need, last := Min(|body|, RTMP_CHUNK_SIZE), |body| <= RTMP_CHUNK_SIZE;
      ReferenceChunk(h, partial, need, last, PrintBody(body, csid) + tail)
         == Reference(h, [], tail).After([Message(h, partial + body)])
    decreases |body|
  {
    if |body| <= RTMP_CHUNK_SIZE {
      FrontAndRest(body, tail);
    } else {
      var n := RTMP_CHUNK_SIZE;
      var first, more: seq<Byte> := body[..n], [192 + csid];
      var printed := PrintBody(body[n..], csid);
      Regroup4(first, more, printed, tail);
      FrontAndRest(first, more + (printed + tail));
      FrontAndRest(more, printed + tail);
      FormatThree(h, partial + first, csid, printed + tail);
      BodyRoundTrip(h, partial + first, body[n..], csid, tail);
      SplitBody(partial, body);
    }
  }

  lemma AfterNothing(d: Decoded)
    ensures d.After([]) == d
  {
    assert [] + d.messages == d.messages;
  }

  lemma EmptyBody(h: PackHeader, tail: seq<Byte>)
    requires h.Size() == 0
    ensures ReferenceChunk(h, [], 0, true, tail) == Reference(h, [], tail)
  {
    assert [] + tail[..0] == [] && tail[0..] == tail;
  }

  lemma MessageRoundTrip(previous: PackHeader, m: Message, choice: Choice, tail: seq<Byte>)
    requires Allowed(previous, m, choice)
    ensures Reference(previous, [], PrintMessage(m, choice) + tail)
         == Reference(m.header, [], tail).After(if m.body == [] then [] else [m])
  {
    hide ParseHeader, PrintHeader;
    var header, body := PrintHeader(m, choice), PrintBody(m.body, choice.csid);
    var input := header + (body + tail);
    assert PrintMessage(m, choice) + tail == input;
    assert input[|header|..] == body + tail;
    HeaderRoundTrip(previous, m, choice, body + tail);
    if m.body == [] {
      EmptyBody(m.header, body + tail);
      AfterNothing(Reference(m.header, [], tail));
    } else {
      BodyRoundTrip(m.header, [], m.body, choice.csid, tail);
      assert [] + m.body == m.body;
    }
  }

  lemma PrintFirst(previous: PackHeader, messages: seq<Message>, choices: seq<Choice>, tail: seq<Byte>)
    requires AllAllowed(previous, messages, choices) && messages != []
    ensures Print(previous, messages, choices) + tail
         == PrintMessage(messages[0], choices[0]) + (Print(messages[0].header, messages[1..], choices[1..]) + tail)
    ensures Last(previous, messages) == Last(messages[0].header, messages[1..])
  {
    hide PrintMessage;
    Regroup3(PrintMessage(messages[0], choices[0]), Print(messages[0].header, messages[1..], choices[1..]), tail);
  }

  lemma AfterBoth(d: Decoded, first: seq<Message>, more: seq<Message>)
    ensures d.After(more).After(first) == d.After(first + more)
  {
    assert first + (more + d.messages) == first + more + d.messages;
  }

  /** The reference decoder inverts the chunker, and continues behind the printed messages. */
  lemma {:induction false} ReferenceInvertsPrint(previous: PackHeader, messages: seq<Message>, choices: seq<Choice>,
                                                 tail: seq<Byte>)
    requires AllAllowed(previous, messages, choices)
    ensures Reference(previous, [], Print(previous, messages, choices) + tail)
         == Reference(Last(previous, messages), [], tail).After(Full(messages))
    decreases |messages|
  {
    if messages == [] {
      assert [] + tail == tail;
      AfterNothing(Reference(previous, [], tail));
    } else {
      var m := messages[0];
      var printed := Print(m.header, messages[1..], choices[1..]);
      PrintFirst(previous, messages, choices, tail);
      MessageRoundTrip(previous, m, choices[0], printed + tail);
      ReferenceInvertsPrint(m.header, messages[1..], choices[1..], tail);
      AfterBoth(Reference(Last(previous, messages), [], tail), if m.body == [] then [] else [m], Full(messages[1..]));
    }
  }

  /** Print any list of messages, cut the bytes anywhere, call ParseData at any moments: once the calls
      change nothing any more, exactly these messages but the empty ones have been delivered, in order. */
  lemma RoundTrip(previous: PackHeader, messages: seq<Message>, choices: seq<Choice>, events: seq<Event>)
    requires AllAllowed(previous, messages, choices)
    requires Received(events) == Print(previous, messages, choices)
    ensures var r := Run(Core(previous, [], false, 0), [], events);
      && r.done <= Full(messages)
      && Unwrapped(r.core)
      && (Drained(r.core, r.rest) ==> r.done == Full(messages))
  {
    var c := Core(previous, [], false, 0);
    ReferenceInvertsPrint(previous, messages, choices, []);
    assert Print(previous, messages, choices) + [] == Received(events);
    assert Full(messages) + [] == Full(messages);
    DeliveredIsPrefix(c, events);
    assert [] + Received(events) == Received(events);
    RunKeepsUnwrapped(c, [], events);
  }

  // ---------------------------------------------------------------- what one call takes

  /** Every message fits one chunk, and behind an empty one there is nothing. */
  predicate Flows(messages: seq<Message>)
    decreases |messages|
  {
    messages == [] ||
      (|messages[0].body| <= RTMP_CHUNK_SIZE && (messages[0].body == [] ==> |messages| == 1) && Flows(messages[1..]))
  }

  lemma ShortMessage(c: Core, m: Message, csid: nat, tail: seq<Byte>)
    requires c == Core(m.header, [], true, 0) && csid < 64 && m.Sized() && 0 < |m.body| <= RTMP_CHUNK_SIZE
    ensures ParseBody(c, PrintBody(m.body, csid) + tail) == Outcome(Core(m.header, [], false, 0), tail, [m])
  {
    FrontAndRest(m.body, tail);
    assert [] + m.body == m.body;
  }

  lemma LongMessage(c: Core, m: Message, csid: nat, tail: seq<Byte>)
    requires c == Core(m.header, [], true, 0) && csid < 64 && m.Sized() && |m.body| > RTMP_CHUNK_SIZE
    ensures var r := ParseBody(c, PrintBody(m.body, csid) + tail);
      !r.core.inBody && r.done == [] && ParseHeader(r.core.header, r.rest).length == 1
  {
    var n := RTMP_CHUNK_SIZE;
    var more := PrintBody(m.body[n..], csid);
    Regroup4(m.body[..n], [192 + csid], more, tail);
    FrontAndRest(m.body[..n], [192 + csid] + (more + tail));
    FormatThree(m.header, m.body[..n], csid, more + tail);
  }

  lemma EmptyMessage(c: Core, m: Message, csid: nat, tail: seq<Byte>)
    requires c == Core(m.header, [], true, 0) && csid < 64 && m.Sized() && m.body == []
    ensures ParseBody(c, PrintBody(m.body, csid) + tail) == Outcome(Core(m.header, [], false, 0), tail, [])
  {
    assert PrintBody(m.body, csid) + tail == tail;
    assert tail[..0] == [] && tail[0..] == tail;
  }

  lemma NoHeader(h: PackHeader)
    ensures ParseHeader(h, []).length == 0
  {
  }

  /** Behind a message there is a header if and only if there is another message. */
  lemma HeaderIsThere(previous: PackHeader, messages: seq<Message>, choices: seq<Choice>)
    requires AllAllowed(previous, messages, choices)
    ensures ParseHeader(previous, Print(previous, messages, choices)).length > 0 <==> messages != []
  {
    hide PrintHeader, PrintBody, ParseHeader;
    if messages == [] {
      NoHeader(previous);
    } else {
      var m, choice := messages[0], choices[0];
      var rest := PrintBody(m.body, choice.csid) + Print(m.header, messages[1..], choices[1..]);
      HeaderRoundTrip(previous, m, choice, rest);
      Regroup3(PrintHeader(m, choice), PrintBody(m.body, choice.csid), Print(m.header, messages[1..], choices[1..]));
    }
  }

  /** One call on printed messages takes them all if and only if each of them fits one chunk and none but the
      last is empty. */
  lemma {:induction false} PausesIffSplit(previous: PackHeader, messages: seq<Message>, choices: seq<Choice>)
    requires AllAllowed(previous, messages, choices)
    ensures Pauses(Core(previous, [], false, 0), Print(previous, messages, choices)) <==> !Flows(messages)
    decreases |messages|
  {
    hide ParseBody, ParseHeader, PrintBody, PrintHeader;
    var c := Core(previous, [], false, 0);
    if messages == [] {
      NoHeader(previous);
    } else {
      var m, choice := messages[0], choices[0];
      var more := Print(m.header, messages[1..], choices[1..]);
      var header, body := PrintHeader(m, choice), PrintBody(m.body, choice.csid);
      Regroup3(header, body, more);
      FrontAndRest(header, body + more);
      HeaderRoundTrip(previous, m, choice, body + more);
      assert c.(header := m.header, inBody := true) == Core(m.header, [], true, 0);
      if m.body == [] {
        EmptyMessage(Core(m.header, [], true, 0), m, choice.csid, more);
        HeaderIsThere(m.header, messages[1..], choices[1..]);
      } else if |m.body| <= RTMP_CHUNK_SIZE {
        ShortMessage(Core(m.header, [], true, 0), m, choice.csid, more);
        PausesIffSplit(m.header, messages[1..], choices[1..]);
      } else {
        LongMessage(Core(m.header, [], true, 0), m, choice.csid, more);
      }
    }
  }
}
