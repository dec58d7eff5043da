/**
 RtmpManager::ParseData as a whole: the three leading messages that become header tags, then the
 de-chunker, the clock and the PreviousTagSize chain. `Loop` follows the source round by round;
 the lemmas connect it to the de-chunker and to the tag track.
 */
module Publisher {
  import opened Bytes
  import opened FlvCodec
  import opened FlvManagers
  import opened RtmpCodec
  import opened Dechunker
  import opened Timeline
  import opened Chunker
  import DechunkerRuns

  const RTMP_START_PARSE_LENGTH := 1000

  /** What memory holds that the source reads before it is written: the header fields of the three packs
      on ParseFirstHeader's stack, and the bytes behind the received ones. */
  datatype Locals = Locals(script: PackHeader, first: PackHeader, second: PackHeader, beyond: Memory)

  /** `n` bytes from the read position on, whether so many were received or not. */
  function ReadFrom(buf: seq<Byte>, beyond: Memory, n: nat): (r: seq<Byte>)
    requires n < TWO_TO_24
    ensures |r| == n
  {
    if n <= |buf| then buf[..n] else buf + beyond[..n - |buf|]
  }

  /** One leading message: not understood or of the wrong type, or there; `taken` is what its parser returns,
      header and announced size. */
  datatype LeadingMessage = Wrong(rest: seq<Byte>) | Got(message: Message, rest: seq<Byte>, taken: nat)

  /** A body that is not completely there is filled up from behind the received bytes. */
  function ParseOne(pack: PackHeader, buf: seq<Byte>, kinds: set<Byte>, beyond: Memory): (r: LeadingMessage)
    ensures |r.rest| <= |buf|
    ensures r.Wrong? && |buf| >= 12 ==> |r.rest| < |buf|
    ensures r.Got? ==> |r.rest| < |buf| && r.taken > 0
  {
    var p := ParseHeader(pack, buf);
    if p.length == 0 then Wrong(buf)
    else
      var rest, size := buf[p.length..], p.header.Size();
      if p.header.packType !in kinds then Wrong(rest)
      else Got(Message(p.header, ReadFrom(rest, beyond, size)), rest[Min(size, |rest|)..], p.length + size)
  }

  /** The message is understood, and announces more than was received. */
  predicate ReadsPast(pack: PackHeader, buf: seq<Byte>, kinds: set<Byte>) {
    var p := ParseHeader(pack, buf);
    p.length > 0 && p.header.packType in kinds && p.header.Size() > |buf| - p.length
  }

  /** ParseFirstHeader. `Broken` keeps the messages that were already encoded when the error showed. */
  datatype Leading =
    | NeedMore
    | Broken(encoded: seq<Message>, rest: seq<Byte>)
    | Complete(script: Message, first: Message, second: Message, rest: seq<Byte>, taken: nat)

  const SCRIPT := {RTMP_SCRIPT}
  const MEDIA := {RTMP_AUDIO, RTMP_VIDEO}

  function ParseLeading(buf: seq<Byte>, locals: Locals): (r: Leading)
    ensures r.Complete? || r.Broken? ==> |r.rest| < |buf|
    ensures r.Complete? ==> r.taken > 0
  {
    if |buf| < RTMP_START_PARSE_LENGTH then NeedMore
    else
      match ParseOne(locals.script, buf, SCRIPT, locals.beyond)
      case Wrong(rest) => Broken([], rest)
      case Got(script, rest, n) =>
        match ParseOne(locals.first, rest, MEDIA, locals.beyond)
        case Wrong(rest') => Broken([script], rest')
        case Got(first, rest', n') =>
          match ParseOne(locals.second, rest', MEDIA, locals.beyond)
          case Wrong(rest'') => Broken([script], rest'')
          case Got(second, rest'', n'') => Complete(script, first, second, rest'', n + n' + n'')
  }

  /** Some body of the three is filled up from behind the received bytes. */
  predicate LeadingReadsPast(buf: seq<Byte>, locals: Locals) {
    && |buf| >= RTMP_START_PARSE_LENGTH
    && (|| ReadsPast(locals.script, buf, SCRIPT)
        || var r := ParseOne(locals.script, buf, SCRIPT, locals.beyond);
           r.Got? &&
           (|| ReadsPast(locals.first, r.rest, MEDIA)
            || var q := ParseOne(locals.first, r.rest, MEDIA, locals.beyond);
               q.Got? && ReadsPast(locals.second, q.rest, MEDIA)))
  }

  /** EncodeHeaderAndSwapBuffer on a tag that may have been used before. */
  function EncodeInto(t: Tag, m: Message, clock: nat): Tag {
    Tag(t.header[..4] + [m.header.packType] + m.header.dataSize + BE24(clock % TWO_TO_24) + t.header[11..], m.body)
  }

  /** The state of RtmpManager behind the handshake: whether the leading messages are still missing,
      the de-chunker, the track of clock and last tag, the header tags, `parsed_length_`. */
  datatype State = State(leading: bool, core: Core, track: Track, headers: Headers, parsed: nat) {
    predicate Valid() { core.Waiting() && track.Valid() }
  }

  function WithScript(s: State, m: Message): State
    requires s.track.Valid()
  {
    var clock := Tick(s.track.clock, m);
    s.(track := s.track.(clock := clock), headers := s.headers.(script := EncodeInto(s.headers.script, m, clock)))
  }

  function WithFirst(s: State, m: Message): State
    requires s.track.Valid()
  {
    var clock := Tick(s.track.clock, m);
    s.(track := s.track.(clock := clock), headers := s.headers.(first := EncodeInto(s.headers.first, m, clock)))
  }

  function WithSecond(s: State, m: Message): State
    requires s.track.Valid()
  {
    var clock := Tick(s.track.clock, m);
    s.(track := s.track.(clock := clock), headers := s.headers.(second := EncodeInto(s.headers.second, m, clock)))
  }

  function WithHeaders(s: State, script: Message, first: Message, second: Message): State
    requires s.track.Valid()
  {
    WithSecond(WithFirst(WithScript(s, script), first), second).(leading := false)
  }

  /** What the loop of ParseData ends with: success or -1, the sum it returns, the state, the unread
      bytes, and the tags handed to the callback. */
  datatype Result = Result(ok: bool, total: nat, state: State, rest: seq<Byte>, tags: seq<Tag>) {
    function Behind(total: nat, tags: seq<Tag>): Result {
      this.(total := total + this.total, tags := tags + this.tags)
    }
  }

  predicate InBounds(s: State, buf: seq<Byte>, locals: Locals) {
    s.leading ==> !LeadingReadsPast(buf, locals)
  }

  /** One round of the loop: `ssize_t` result, state, unread bytes, tags handed over. */
  datatype Round = Round(parsed: int, state: State, rest: seq<Byte>, tags: seq<Tag>)

  function LeadingRound(s: State, buf: seq<Byte>, locals: Locals): Round
    requires s.track.Valid() && s.leading
  {
    match ParseLeading(buf, locals)
    case NeedMore => Round(0, s, buf, [])
    case Broken(encoded, rest) => Round(-1, if encoded == [] then s else WithScript(s, encoded[0]), rest, [])
    case Complete(script, first, second, rest, taken) => Round(taken, WithHeaders(s, script, first, second), rest, [])
  }

  /** A leading round in terms of its three messages; one that is wrong stands for those behind it too. */
  function RoundOf(s: State, r: LeadingMessage, r1: LeadingMessage, r2: LeadingMessage): Round
    requires s.track.Valid()
    requires r2.Got? ==> r1.Got?
    requires r1.Got? ==> r.Got?
  {
    if r.Wrong? then Round(-1, s, r.rest, [])
    else if r2.Wrong? then Round(-1, WithScript(s, r.message), r2.rest, [])
    else Round(r.taken + r1.taken + r2.taken, WithHeaders(s, r.message, r1.message, r2.message), r2.rest, [])
  }

  lemma LeadingRoundIs(s: State, buf: seq<Byte>, locals: Locals, r: LeadingMessage, r1: LeadingMessage,
                       r2: LeadingMessage)
    requires s.track.Valid() && s.leading && |buf| >= RTMP_START_PARSE_LENGTH
    requires r == ParseOne(locals.script, buf, SCRIPT, locals.beyond)
    requires r1 == if r.Got? then ParseOne(locals.first, r.rest, MEDIA, locals.beyond) else r
    requires r2 == if r1.Got? then ParseOne(locals.second, r1.rest, MEDIA, locals.beyond) else r1
    ensures LeadingRound(s, buf, locals) == RoundOf(s, r, r1, r2)
  {
  }

  /** A leading round touches the clock and the header tags only, and ends the leading state when it succeeds. */
  lemma LeadingRoundKeeps(s: State, buf: seq<Byte>, locals: Locals)
    requires s.Valid() && s.leading
    ensures var r := LeadingRound(s, buf, locals);
      && r.state.Valid() && r.state.core == s.core && r.state.track.previous == s.track.previous
      && r.state.parsed == s.parsed && r.tags == []
      && (r.state.leading <==> r.parsed <= 0)
  {
  }

  /** The part of a state that codec and header tags show. */
  predicate Shows(s: State, clock: nat, headers: Headers) {
    clock == s.track.clock && headers == s.headers
  }

  function ChunkRound(s: State, buf: seq<Byte>): (r: Round)
    requires s.Valid() && !s.leading
    ensures r.state.Valid() && !r.state.leading && r.parsed >= 0
    ensures r.parsed > 0 ==> Distance(r.state.core, r.rest) < Distance(s.core, buf)
  {
    var p := if s.core.inBody then HeaderParse(0, s.core.header) else ParseHeader(s.core.header, buf);
    if !s.core.inBody && p.length == 0 then Round(0, s, buf, [])
    else
      var c := s.core.(header := p.header, inBody := true);
      BodyCommutes(c, buf[p.length..], []);
      var r := ParseBody(c, buf[p.length..]);
      if r.done == [] then Round(0, s.(core := r.core), r.rest, [])
      else
        var m := r.done[0];
        Round(m.header.Size(), s.(core := r.core, track := Next(s.track, m)), r.rest,
          if m.IsMedia() then [TagOf(s.track, m)] else [])
  }

  /** The second half of a round: the body, if it is due, out of `rest`. */
  function BodyRound(s: State, rest: seq<Byte>): Round
    requires s.track.Valid() && s.core.readChunk < RTMP_CHUNK_SIZE
  {
    if !s.core.inBody then Round(0, s, rest, [])
    else
      var r := ParseBody(s.core, rest);
      if r.done == [] then Round(0, s.(core := r.core), r.rest, [])
      else
        var m := r.done[0];
        Round(m.header.Size(), s.(core := r.core, track := Next(s.track, m)), r.rest,
          if m.IsMedia() then [TagOf(s.track, m)] else [])
  }

  lemma ChunkRoundIs(s: State, buf: seq<Byte>)
    requires s.Valid() && !s.leading
    ensures var p := if s.core.inBody then HeaderParse(0, s.core.header) else ParseHeader(s.core.header, buf);
      var c := if s.core.inBody || p.length > 0 then s.core.(header := p.header, inBody := true) else s.core;
      ChunkRound(s, buf) == BodyRound(s.(core := c), buf[p.length..])
  {
    hide ParseHeader, ParseBody, Next, TagOf;
    assert buf[0..] == buf;
  }

  function Loop(s: State, buf: seq<Byte>, locals: Locals): (r: Result)
    requires s.Valid()
    ensures r.state.track.Valid() && r.state.core.readChunk < RTMP_CHUNK_SIZE
    decreases s.leading, Distance(s.core, buf)
  {
    var r := if s.leading then LeadingRound(s, buf, locals) else ChunkRound(s, buf);
    if r.parsed > 0 then Loop(r.state, r.rest, locals).Behind(r.parsed, r.tags)
    else Result(r.parsed == 0, 0, r.state, r.rest, [])
  }

  lemma BehindTwice(r: Result, total: nat, tags: seq<Tag>, total': nat, tags': seq<Tag>)
    ensures r.Behind(total', tags').Behind(total, tags) == r.Behind(total + total', tags + tags')
    ensures r.Behind(0, []) == r
  {
    assert tags + (tags' + r.tags) == tags + tags' + r.tags;
    assert [] + r.tags == r.tags;
  }

  function RoundFrom(s: State, buf: seq<Byte>, locals: Locals): Round
    requires s.Valid()
  {
    if s.leading then LeadingRound(s, buf, locals) else ChunkRound(s, buf)
  }

  /** What a loop that follows the rounds knows after `total` bytes and the tags `sent`. */
  lemma LoopAdvances(whole: Result, s: State, buf: seq<Byte>, locals: Locals, total: nat, sent: seq<Tag>)
    requires s.Valid() && whole == Loop(s, buf, locals).Behind(total, sent)
    ensures var r := RoundFrom(s, buf, locals);
      && r.state.Valid() && r.state.parsed == s.parsed
      && (r.parsed > 0 ==>
          && !r.state.leading
          && (!s.leading ==> Distance(r.state.core, r.rest) < Distance(s.core, buf))
          && whole == Loop(r.state, r.rest, locals).Behind(total + r.parsed, sent + r.tags))
      && (r.parsed <= 0 ==> r.tags == [] && whole == Result(r.parsed == 0, total, r.state, r.rest, sent))
  {
    var r := RoundFrom(s, buf, locals);
    if r.parsed > 0 {
      BehindTwice(Loop(r.state, r.rest, locals), total, sent, r.parsed, r.tags);
    }
  }

  /** One call of ParseData. */
  function Call(s: State, buf: seq<Byte>, locals: Locals): Result
    requires s.Valid()
  {
    if buf == [] then Result(true, 0, s, buf, [])
    else
      var r := Loop(s, buf, locals);
      if r.ok then r.(state := r.state.(parsed := s.parsed + r.total)) else r
  }

  function SizeSum(messages: seq<Message>): nat {
    if messages == [] then 0 else messages[0].header.Size() + SizeSum(messages[1..])
  }

  // ---------------------------------------------------------------- behind the leading messages

  /** The result of the de-chunker, carried on by the track. */
  function Dechunked(s: State, d: Outcome): Result
    requires s.track.Valid()
  {
    Result(true, SizeSum(d.done), s.(core := d.core, track := After(s.track, d.done)), d.rest, Tags(s.track, d.done))
  }

  lemma DechunkedStep(s: State, core: Core, m: Message, d: Outcome)
    requires s.track.Valid()
    ensures Dechunked(s, d.(done := [m] + d.done))
      == Dechunked(s.(core := core, track := Next(s.track, m)), d)
         .Behind(m.header.Size(), if m.IsMedia() then [TagOf(s.track, m)] else [])
  {
    var done := [m] + d.done;
    assert done[0] == m && done[1..] == d.done;
  }

  /** Behind the leading messages the loop is the de-chunker's: it returns the sizes of the completed
      messages, and hands over their tags on the track. */
  lemma {:induction false} LoopIsDechunker(s: State, buf: seq<Byte>, locals: Locals)
    requires s.Valid() && !s.leading
    ensures ParseLoop(s.core, buf).core.Waiting()
    ensures Loop(s, buf, locals) == Dechunked(s, ParseLoop(s.core, buf))
    decreases Distance(s.core, buf)
  {
    var p := if s.core.inBody then HeaderParse(0, s.core.header) else ParseHeader(s.core.header, buf);
    if s.core.inBody || p.length > 0 {
      var c := s.core.(header := p.header, inBody := true);
      BodyCommutes(c, buf[p.length..], []);
      var r := ParseBody(c, buf[p.length..]);
      if r.done != [] {
        var m := r.done[0];
        assert r.done == [m];
        LoopIsDechunker(s.(core := r.core, track := Next(s.track, m)), r.rest, locals);
        DechunkedStep(s, r.core, m, ParseLoop(r.core, r.rest));
      }
    }
  }

  /** A call keeps the state valid, whatever the bytes and wherever it stands. */
  lemma CallKeepsValid(s: State, buf: seq<Byte>, locals: Locals)
    requires s.Valid()
    ensures Call(s, buf, locals).state.Valid()
  {
    if buf != [] {
      if s.leading {
        match ParseLeading(buf, locals)
        case Complete(script, first, second, rest, _) =>
          LoopIsDechunker(WithHeaders(s, script, first, second), rest, locals);
        case _ =>
      } else {
        LoopIsDechunker(s, buf, locals);
      }
    }
  }

  /** Every call, leading messages included, on a full window or less leaves room for the next read. */
  lemma PublisherLeavesRoom(s: State, buf: seq<Byte>, locals: Locals)
    requires s.Valid() && |buf| <= RTMP_CHUNK_SIZE
    ensures |Call(s, buf, locals).rest| < RTMP_CHUNK_SIZE
  {
    if buf != [] {
      if s.leading {
        match ParseLeading(buf, locals)
        case Complete(script, first, second, rest, _) =>
          var s' := WithHeaders(s, script, first, second);
          LoopIsDechunker(s', rest, locals);
          DechunkerRuns.CallLeavesRoom(s'.core, rest);
        case _ =>
      } else {
        LoopIsDechunker(s, buf, locals);
        DechunkerRuns.CallLeavesRoom(s.core, buf);
      }
    }
  }

  // ---------------------------------------------------------------- the leading messages

  /** A leading message is printed unsplit with a full header. */
  predicate Leads(m: Message, choice: Choice, kinds: set<Byte>) {
    Unsplit(m, choice) && m.header.packType in kinds
  }

  lemma ParseOneInvertsPrint(pack: PackHeader, m: Message, choice: Choice, kinds: set<Byte>, tail: seq<Byte>,
                             beyond: Memory)
    requires Leads(m, choice, kinds)
    ensures var buf := PrintUnsplit(m, choice) + tail;
      && ParseOne(pack, buf, kinds, beyond) == Got(m, tail, |PrintUnsplit(m, choice)|)
      && !ReadsPast(pack, buf, kinds)
  {
    hide ParseHeader, PrintHeader;
    FullHeader(pack, m, choice, tail);
    FrontAndRest(m.body, tail);
  }

  /** A leading message that is there in part: the source reads past the received bytes if and only if the
      header is complete, and reports an error otherwise. */
  lemma CutMessage(pack: PackHeader, m: Message, choice: Choice, kinds: set<Byte>, k: nat, beyond: Memory)
    requires Leads(m, choice, kinds) && k < |PrintUnsplit(m, choice)|
    ensures var part := PrintUnsplit(m, choice)[..k];
      && (ReadsPast(pack, part, kinds) <==> k >= |PrintHeader(m, choice)|)
      && (ParseOne(pack, part, kinds, beyond).Got? <==> k >= |PrintHeader(m, choice)|)
      && (k < |PrintHeader(m, choice)| ==> ParseOne(pack, part, kinds, beyond) == Wrong(part))
  {
    hide ParseHeader, PrintHeader, PackTypeOf;
    var printed := PrintUnsplit(m, choice);
    var part := printed[..k];
    FullHeader(pack, m, choice, []);
    assert printed + [] == printed == part + printed[k..];
    if ParseHeader(pack, part).length > 0 {
      ParseHeaderExtends(pack, part, printed[k..]);
    }
    if k >= |PrintHeader(m, choice)| {
      var front, rest := PrintHeader(m, choice), m.body[..k - |PrintHeader(m, choice)|];
      assert part == front + rest;
      HeaderAlone(pack, m, choice);
      ParseHeaderExtends(pack, front, rest);
    }
  }

  lemma RegroupLead(x: seq<Byte>, y: seq<Byte>, z: seq<Byte>, tail: seq<Byte>)
    ensures x + (y + z) + tail == x + (y + (z + tail))
  {
  }

  lemma BehindLead(x: seq<Byte>, y: seq<Byte>, z: seq<Byte>, tail: seq<Byte>, locals: Locals,
                   m: Message, m1: Message, m2: Message)
    requires |x + (y + (z + tail))| >= RTMP_START_PARSE_LENGTH
    requires ParseOne(locals.script, x + (y + (z + tail)), SCRIPT, locals.beyond) == Got(m, y + (z + tail), |x|)
    requires ParseOne(locals.first, y + (z + tail), MEDIA, locals.beyond) == Got(m1, z + tail, |y|)
    requires ParseOne(locals.second, z + tail, MEDIA, locals.beyond) == Got(m2, tail, |z|)
    requires !ReadsPast(locals.script, x + (y + (z + tail)), SCRIPT)
    requires !ReadsPast(locals.first, y + (z + tail), MEDIA) && !ReadsPast(locals.second, z + tail, MEDIA)
    ensures ParseLeading(x + (y + z) + tail, locals) == Complete(m, m1, m2, tail, |x + (y + z)|)
    ensures !LeadingReadsPast(x + (y + z) + tail, locals)
  {
    hide ParseOne, ReadsPast;
    RegroupLead(x, y, z, tail);
  }

  /** Three leading messages are taken from any buffer that holds all of them and 1000 bytes or more:
      nothing but received bytes is read, exactly their bytes are consumed, and if they are within 1000
      bytes the header block that viewers get fits its 4096-byte buffer. */
  lemma LeadingTaken(m: seq<Message>, choices: seq<Choice>, tail: seq<Byte>, locals: Locals)
    requires |m| == |choices| == 3
    requires Leads(m[0], choices[0], SCRIPT) && Leads(m[1], choices[1], MEDIA) && Leads(m[2], choices[2], MEDIA)
    requires var printed :=
        PrintUnsplit(m[0], choices[0]) + (PrintUnsplit(m[1], choices[1]) + PrintUnsplit(m[2], choices[2]));
      RTMP_START_PARSE_LENGTH <= |printed + tail|
    ensures var printed :=
        PrintUnsplit(m[0], choices[0]) + (PrintUnsplit(m[1], choices[1]) + PrintUnsplit(m[2], choices[2]));
      && ParseLeading(printed + tail, locals) == Complete(m[0], m[1], m[2], tail, |printed|)
      && !LeadingReadsPast(printed + tail, locals)
      && (|printed| <= RTMP_START_PARSE_LENGTH ==> 9 + 3 * 15 + |m[0].body| + |m[1].body| + |m[2].body| <= 4096)
  {
    hide ParseLeading, LeadingReadsPast, ParseOne, ReadsPast, PrintHeader;
    var x, y, z := PrintUnsplit(m[0], choices[0]), PrintUnsplit(m[1], choices[1]), PrintUnsplit(m[2], choices[2]);
    RegroupLead(x, y, z, tail);
    ParseOneInvertsPrint(locals.script, m[0], choices[0], SCRIPT, y + (z + tail), locals.beyond);
    ParseOneInvertsPrint(locals.first, m[1], choices[1], MEDIA, z + tail, locals.beyond);
    ParseOneInvertsPrint(locals.second, m[2], choices[2], MEDIA, tail, locals.beyond);
    BehindLead(x, y, z, tail, locals, m[0], m[1], m[2]);
  }

  /** The header tags carry the leading messages, with times on the common clock. */
  lemma EncodedFields(t: Tag, m: Message, clock: nat)
    ensures var e := EncodeInto(t, m, clock);
      && e.PreviousTagSize() == t.PreviousTagSize()
      && Carries(e, m) && e.Time() == clock % TWO_TO_24 && e.header[11..] == t.header[11..]
  {
    var e := EncodeInto(t, m, clock);
    assert e.header[..4] == t.header[..4] && e.header[5..8] == m.header.dataSize
        && e.header[8..11] == BE24(clock % TWO_TO_24);
    U24OfBE24(clock % TWO_TO_24);
  }

  function Blank(): Tag {
    Tag(seq(FLV_TAG_HEADER_LENGTH, _ => 0), [])
  }

  /** Encoding a message into a new tag and setting its PreviousTagSize gives the tag of the track. */
  lemma EncodedIsTagOf(track: Track, m: Message)
    requires track.Valid()
    ensures EncodeInto(Blank(), m, Tick(track.clock, m)).WithPrevious(track.previous) == TagOf(track, m)
    ensures EncodeInto(Blank(), m, Tick(track.clock, m)).Kind() == m.header.packType
  {
    var clock := Tick(track.clock, m) % TWO_TO_24;
    var e := EncodeInto(Blank(), m, Tick(track.clock, m));
    assert e.header[4..] == [m.header.packType] + m.header.dataSize + BE24(clock) + [0, 0, 0, 0];
    assert e.WithPrevious(track.previous).header
      == HeaderOf(track.previous, m.header.packType, m.header.dataSize, clock);
  }

  /** The headers taken from three leading messages: sized, unlinked, and of the announced block size. */
  lemma HeadersFromLeading(s: State, script: Message, first: Message, second: Message)
    requires s.track.Valid()
    requires script.Sized() && first.Sized() && second.Sized()
    ensures var s' := WithHeaders(s, script, first, second);
      && s'.headers.Sized() && s'.headers.script.PreviousTagSize() == s.headers.script.PreviousTagSize()
      && s'.headers.BlockSize() == FLV_HEADER_LENGTH + 45 + |script.body| + |first.body| + |second.body|
      && s'.track == s.track.(clock := After(s.track, [script, first, second]).clock)
  {
    var c1 := Tick(s.track.clock, script);
    var c2 := Tick(c1, first);
    var c3 := Tick(c2, second);
    EncodedFields(s.headers.script, script, c1);
    EncodedFields(s.headers.first, first, c2);
    EncodedFields(s.headers.second, second, c3);
    var ms := [script, first, second];
    assert ms[1..] == [first, second] && ms[1..][1..] == [second] && ms[1..][1..][1..] == [];
    var t1 := Next(s.track, script);
    var t2 := Next(t1, first);
    assert After(s.track, ms) == After(t1, [first, second]) == After(t2, [second]) == Next(t2, second);
  }
}
