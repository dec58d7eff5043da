/** From messages to FLV tags: the running clock, the PreviousTagSize chain, and which messages become tags. */
module Timeline {
  import opened Bytes
  import opened RtmpCodec
  import opened FlvCodec

  /** The codec's `timestamp_`, and the size the next tag has to announce (0 before the first tag). */
  datatype Track = Track(clock: nat, previous: nat) {
    predicate Valid() { clock < TWO_TO_32 && previous < TWO_TO_32 }
  }

  function TagOf(track: Track, m: Message): Tag
    requires track.Valid()
  {
    Tag(HeaderOf(track.previous, m.header.packType, m.header.dataSize, Tick(track.clock, m) % TWO_TO_24), m.body)
  }

  /** Every message moves the clock; only audio and video become the last tag. */
  function Next(track: Track, m: Message): (t: Track)
    requires track.Valid()
    ensures t.Valid()
  {
    if m.IsMedia() then Track(Tick(track.clock, m), 11 + m.header.Size())
    else track.(clock := Tick(track.clock, m))
  }

  function After(track: Track, messages: seq<Message>): (t: Track)
    requires track.Valid()
    ensures t.Valid()
    decreases |messages|
  {
    if messages == [] then track else After(Next(track, messages[0]), messages[1..])
  }

  /** The tags handed to the callback for a list of completed messages. */
  function Tags(track: Track, messages: seq<Message>): seq<Tag>
    requires track.Valid()
    decreases |messages|
  {
    if messages == [] then []
    else
      var m := messages[0];
      (if m.IsMedia() then [TagOf(track, m)] else []) + Tags(Next(track, m), messages[1..])
  }

  lemma {:induction false} TagsAppend(track: Track, a: seq<Message>, b: seq<Message>)
    requires track.Valid()
    ensures After(track, a + b) == After(After(track, a), b)
    ensures Tags(track, a + b) == Tags(track, a) + Tags(After(track, a), b)
    decreases |a|
  {
    if a == [] {
      assert a + b == b;
    } else {
      assert (a + b)[0] == a[0] && (a + b)[1..] == a[1..] + b;
      TagsAppend(Next(track, a[0]), a[1..], b);
    }
  }

  function Media(messages: seq<Message>): seq<Message> {
    if messages == [] then []
    else (if messages[0].IsMedia() then [messages[0]] else []) + Media(messages[1..])
  }

  /** The tag carries the message: its type, its announced size and its body. */
  predicate Carries(t: Tag, m: Message) {
    t.Kind() == m.header.packType && t.DataSize() == m.header.Size() && t.body == m.body
  }

  lemma TagCarries(track: Track, m: Message)
    requires track.Valid()
    ensures var t := TagOf(track, m);
      && Carries(t, m) && t.PreviousTagSize() == track.previous
      && t.Time() == Tick(track.clock, m) % TWO_TO_24 && t.header[11..] == [0, 0, 0, 0]
  {
    HeaderOfFields(track.previous, m.header.packType, m.header.dataSize, Tick(track.clock, m) % TWO_TO_24, m.body);
  }

  /** Exactly the audio and video messages become tags, in order and unchanged. */
  lemma {:induction false} TagsCarryMedia(track: Track, messages: seq<Message>)
    requires track.Valid()
    ensures |Tags(track, messages)| == |Media(messages)|
    ensures forall i :: 0 <= i < |Media(messages)| ==> Carries(Tags(track, messages)[i], Media(messages)[i])
    decreases |messages|
  {
    if messages != [] {
      TagsCarryMedia(Next(track, messages[0]), messages[1..]);
      TagCarries(track, messages[0]);
    }
  }

  predicate AllSized(tags: seq<Tag>) {
    forall i :: 0 <= i < |tags| ==> tags[i].Sized()
  }

  /** Messages with their announced sizes make tags with their announced sizes. */
  lemma {:induction false} TagsSized(track: Track, messages: seq<Message>)
    requires track.Valid() && forall i :: 0 <= i < |messages| ==> messages[i].Sized()
    ensures AllSized(Tags(track, messages))
    decreases |messages|
  {
    if messages != [] {
      TagCarries(track, messages[0]);
      assert messages[0].Sized();
      assert TagOf(track, messages[0]).Sized();
      TagsSized(Next(track, messages[0]), messages[1..]);
    }
  }

  // ---------------------------------------------------------------- the PreviousTagSize chain

  /** Each tag announces the size of the one before it; the first announces `previous`. */
  predicate Chained(previous: nat, tags: seq<Tag>)
    decreases |tags|
  {
    tags == [] || (tags[0].PreviousTagSize() == previous && Chained(tags[0].CurrentTagSize(), tags[1..]))
  }

  function LastSize(previous: nat, tags: seq<Tag>): nat {
    if tags == [] then previous else tags[|tags| - 1].CurrentTagSize()
  }

  lemma {:induction false} ChainedAppend(previous: nat, a: seq<Tag>, b: seq<Tag>)
    ensures Chained(previous, a + b) <==> Chained(previous, a) && Chained(LastSize(previous, a), b)
    decreases |a|
  {
    if a == [] {
      assert a + b == b;
    } else {
      assert (a + b)[0] == a[0] && (a + b)[1..] == a[1..] + b;
      ChainedAppend(a[0].CurrentTagSize(), a[1..], b);
    }
  }

  /** The tags of any list of messages form a chain, and the track remembers where it ends. */
  lemma {:induction false} TagsAreChained(track: Track, messages: seq<Message>)
    requires track.Valid()
    ensures Chained(track.previous, Tags(track, messages))
    ensures After(track, messages).previous == LastSize(track.previous, Tags(track, messages))
    decreases |messages|
  {
    if messages != [] {
      TagCarries(track, messages[0]);
      TagsAreChained(Next(track, messages[0]), messages[1..]);
      var t := TagOf(track, messages[0]);
      var more := Tags(Next(track, messages[0]), messages[1..]);
      if messages[0].IsMedia() {
        assert ([t] + more)[1..] == more;
      } else {
        assert [] + more == more;
      }
    }
  }

  // ---------------------------------------------------------------- the clock

  function Sum(messages: seq<Message>): nat {
    if messages == [] then 0 else U24(messages[0].header.timestamp) + Sum(messages[1..])
  }

  lemma {:induction false} SumAppend(a: seq<Message>, b: seq<Message>)
    ensures Sum(a + b) == Sum(a) + Sum(b)
  {
    if a == [] {
      assert a + b == b;
    } else {
      assert (a + b)[0] == a[0] && (a + b)[1..] == a[1..] + b;
      SumAppend(a[1..], b);
    }
  }

  /** The clock is the sum of all times so far, modulo 2^32. */
  lemma {:induction false} ClockIsSum(track: Track, messages: seq<Message>)
    requires track.Valid()
    ensures After(track, messages).clock == (track.clock + Sum(messages)) % TWO_TO_32
    decreases |messages|
  {
    if messages != [] {
      ClockIsSum(Next(track, messages[0]), messages[1..]);
      ModAdd(track.clock + U24(messages[0].header.timestamp), Sum(messages[1..]), TWO_TO_32);
    }
  }

  lemma LowClock(n: nat)
    ensures n % TWO_TO_32 % TWO_TO_24 == n % TWO_TO_24
  {
    var q, r := n / TWO_TO_32, n % TWO_TO_32;
    ModUnique(n, q * 256 + r / TWO_TO_24, r % TWO_TO_24, TWO_TO_24);
  }

  /** Behind the tags of the messages before it. */
  lemma TagAt(track: Track, before: seq<Message>, m: Message, behind: seq<Message>)
    requires track.Valid() && m.IsMedia()
    ensures var tags, k := Tags(track, before + [m] + behind), |Tags(track, before)|;
      k < |tags| && tags[k] == TagOf(After(track, before), m)
  {
    assert before + [m] + behind == before + ([m] + behind);
    TagsAppend(track, before, [m] + behind);
    assert ([m] + behind)[1..] == behind;
  }

  lemma TickFromSum(track: Track, before: seq<Message>, m: Message)
    requires track.Valid()
    ensures Tick(After(track, before).clock, m) % TWO_TO_24
      == (track.clock + Sum(before) + U24(m.header.timestamp)) % TWO_TO_24
  {
    hide Sum, After;
    ClockIsSum(track, before);
    ModAdd(track.clock + Sum(before), U24(m.header.timestamp), TWO_TO_32);
    LowClock(track.clock + Sum(before) + U24(m.header.timestamp));
  }

  /** The time of a tag: the sum of the time fields of every message up to and including its own, audio,
      video or not and once per message, modulo 2^24; time extension and stream id
      are 0. */
  lemma TimeOfTag(track: Track, before: seq<Message>, m: Message, behind: seq<Message>)
    requires track.Valid() && m.IsMedia()
    ensures var tags, k := Tags(track, before + [m] + behind), |Tags(track, before)|;
      && k < |tags|
      && Carries(tags[k], m)
      && tags[k].Time() == (track.clock + Sum(before) + U24(m.header.timestamp)) % TWO_TO_24
      && tags[k].header[11..] == [0, 0, 0, 0]
  {
    hide Sum, TagOf, Carries, After;
    TagAt(track, before, m, behind);
    TagCarries(After(track, before), m);
    TickFromSum(track, before, m);
  }

  /** All times from `clock` on, and none before its predecessor's. */
  predicate InOrder(clock: nat, tags: seq<Tag>) {
    && (forall i :: 0 <= i < |tags| ==> clock <= tags[i].Time())
    && (forall i, j :: 0 <= i < j < |tags| ==> tags[i].Time() <= tags[j].Time())
  }

  lemma InOrderStep(track: Track, m: Message, more: seq<Tag>)
    requires track.Valid() && track.clock + U24(m.header.timestamp) < TWO_TO_24
    requires InOrder(Next(track, m).clock, more)
    ensures Next(track, m).clock == track.clock + U24(m.header.timestamp)
    ensures InOrder(track.clock, (if m.IsMedia() then [TagOf(track, m)] else []) + more)
  {
    TagCarries(track, m);
    var time := track.clock + U24(m.header.timestamp);
    assert Tick(track.clock, m) == time == time % TWO_TO_24;
  }

  /** While the sum of all times stays below 2^24, times never go back. */
  lemma {:induction false} TimesDoNotGoBack(track: Track, messages: seq<Message>)
    requires track.Valid() && track.clock + Sum(messages) < TWO_TO_24
    ensures InOrder(track.clock, Tags(track, messages))
    decreases |messages|
  {
    if messages != [] {
      var next := Next(track, messages[0]);
      assert next.clock <= track.clock + U24(messages[0].header.timestamp);
      TimesDoNotGoBack(next, messages[1..]);
      InOrderStep(track, messages[0], Tags(next, messages[1..]));
    }
  }
}
