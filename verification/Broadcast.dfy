/**
 The whole server with its send pipelines: any number of event loops, each with its own connections, queue
 and batch. The publisher's loop parses, and then hands every tag to every viewer, one send after the other;
 the check and the push of a send to another loop are two steps. Between any two steps the loops and the
 kernel do what they do, each loop at its own pace. The end-to-end result follows from invariants of all
 these runs.
 */
module Broadcast {
  import opened Bytes
  import opened FlvCodec
  import opened FlvManagers
  import opened HttpChunks
  import opened Players
  import opened FanOut
  import opened Server
  import opened SendPipeline
  import Dechunker
  import Handshake
  import HandshakeClients
  import HandshakeReads
  import Publisher
  import PublisherRuns
  import Timeline

  // ---------------------------------------------------------------- one send

  function IsOpen(w: World, n: string): bool {
    n in w.connections && w.connections[n].status == CONNECTED
  }

  /** The event loops, and the one that each connection is bound to. */
  datatype Loops = Loops(worlds: seq<World>, home: map<string, nat>)

  const NOBODY := World(map[], [], [], map[])

  /** The loop of the connection `n`. */
  function On(ls: Loops, n: string): World {
    if n in ls.home && ls.home[n] < |ls.worlds| then ls.worlds[ls.home[n]] else NOBODY
  }

  function Put(ls: Loops, l: nat, w: World): Loops
    requires l < |ls.worlds|
  {
    ls.(worlds := ls.worlds[l := w])
  }

  /** `ls` with the loop of `n` at `w`. */
  function PutOn(ls: Loops, n: string, w: World): Loops {
    if n in ls.home && ls.home[n] < |ls.worlds| then Put(ls, ls.home[n], w) else ls
  }

  predicate AllConserved(ls: Loops) {
    forall l :: 0 <= l < |ls.worlds| ==> Conserved(ls.worlds[l])
  }

  /** What happens on one loop happens on no other. */
  lemma PutIs(ls: Loops, l: nat, w: World, n: string)
    requires l < |ls.worlds|
    ensures On(Put(ls, l, w), n) == if n in ls.home && ls.home[n] == l then w else On(ls, n)
    ensures AllConserved(ls) && Conserved(w) ==> AllConserved(Put(ls, l, w))
  {
    hide Conserved;
  }

  lemma HomeIs(ls: Loops, n: string, w: World)
    requires n in On(ls, n).connections
    ensures n in ls.home && ls.home[n] < |ls.worlds| && On(ls, n) == ls.worlds[ls.home[n]]
    ensures PutOn(ls, n, w) == Put(ls, ls.home[n], w)
    ensures AllConserved(ls) ==> Conserved(On(ls, n))
  {
    hide Conserved;
  }

  /** TcpConnection::Send on another thread than the connection's loop, or on the same one. */
  datatype How = OffLoop | OnLoop(answer: Answer)

  datatype Gift = Gift(name: string, bytes: seq<Byte>, how: How)

  /** One Send: dropped unless CONNECTED; on the loop's own thread at once. On another thread this is the
      check, and the payload is in the sender's hands; pushing it is another step. */
  function Made(w: World, g: Gift): World
    requires g.how.OffLoop? ==> g.name !in w.held
  {
    if !IsOpen(w, g.name) then w
    else
      match g.how
      case OffLoop => SendPipeline.Step(w, Begin(g.name, g.bytes))
      case OnLoop(answer) => SendPipeline.Step(w, SendHere(g.name, g.bytes, answer))
  }

  /** Nothing of `w` but the connection `n` and its queue has changed, and `n` has not become CONNECTED. */
  predicate OnlyOne(w: World, w': World, n: string) {
    && w'.connections.Keys == w.connections.Keys
    && (forall m :: m in w.connections && m != n ==>
        w'.connections[m] == w.connections[m] && Queued(w', m) == Queued(w, m))
    && (n in w.connections ==>
        && (w'.connections[n].status == CONNECTED ==> w.connections[n].status == CONNECTED)
        && (w'.connections[n].status == CONNECTING ==> w.connections[n].status == CONNECTING))
  }

  lemma SendInLoopSubmits(c: Connection, data: seq<Byte>, a: Answer)
    requires c.status == CONNECTED
    ensures var d := SendInLoop(c, data, a);
      d.submitted == c.submitted && (d.status == CONNECTED || d.status == DISCONNECTING)
  {
  }

  /** A send to a connection, on either thread: what it has submitted grows by exactly these bytes while it
      is CONNECTED, and by nothing otherwise; on its own loop nothing is queued. */
  lemma MadeSubmits(w: World, g: Gift)
    requires Conserved(w) && g.name in w.connections && (g.how.OffLoop? ==> g.name !in w.held)
    requires g.how.OnLoop? && IsOpen(w, g.name) ==> Queued(w, g.name) == []
    ensures var w', c := Made(w, g), w.connections[g.name];
      && Conserved(w') && OnlyOne(w, w', g.name)
      && (g.how.OnLoop? ==> Queued(w', g.name) == Queued(w, g.name))
      && w'.connections[g.name].submitted == if c.status == CONNECTED then c.submitted + g.bytes else c.submitted
  {
    hide Conserved, SendInLoop, Of;
    var c := w.connections[g.name];
    if c.status == CONNECTED {
      match g.how
      case OnLoop(answer) =>
        StepConserves(w, SendHere(g.name, g.bytes, answer));
        SendInLoopSubmits(c.(submitted := c.submitted + g.bytes), g.bytes, answer);
      case OffLoop =>
        StepConserves(w, Begin(g.name, g.bytes));
    }
  }

  // ---------------------------------------------------------------- what is still to be handed over

  /** The bytes that the publisher's loop has yet to send to `n`. */
  function DueTo(todo: seq<Gift>, n: string): seq<Byte> {
    if todo == [] then []
    else (if todo[0].name == n then todo[0].bytes else []) + DueTo(todo[1..], n)
  }

  lemma {:induction false} DueToAppend(a: seq<Gift>, b: seq<Gift>, n: string)
    ensures DueTo(a + b, n) == DueTo(a, n) + DueTo(b, n)
  {
    if a == [] {
      assert a + b == b;
    } else {
      assert (a + b)[0] == a[0] && (a + b)[1..] == a[1..] + b;
      DueToAppend(a[1..], b, n);
    }
  }

  /** One order of the viewers, and the thread that serves each of them. */
  datatype Turns = Turns(order: seq<string>, hows: seq<How>)
  type Round = r: Turns | |r.order| == |r.hows| witness Turns([], [])

  /** The loop of OnNewFlvTag over the viewers, in the order in which the map is walked. */
  function Walk(order: seq<string>, hows: seq<How>, bytes: seq<Byte>): seq<Gift>
    requires |hows| == |order|
  {
    if order == [] then [] else [Gift(order[0], bytes, hows[0])] + Walk(order[1..], hows[1..], bytes)
  }

  /** The tags of one ParseData, one after the other. */
  function Walks(tags: seq<Tag>, rounds: seq<Round>): seq<Gift>
    requires |rounds| == |tags|
  {
    if tags == [] then []
    else Walk(rounds[0].order, rounds[0].hows, TagFrame(tags[0])) + Walks(tags[1..], rounds[1..])
  }

  predicate Distinct(order: seq<string>) {
    forall i, j :: 0 <= i < j < |order| ==> order[i] != order[j]
  }

  /** Connections on the publisher's loop, `here`, are sent to on it; all others through their queues. */
  predicate Threads(order: seq<string>, hows: seq<How>, here: set<string>)
    requires |hows| == |order|
  {
    forall i :: 0 <= i < |order| ==> (hows[i].OnLoop? <==> order[i] in here)
  }

  predicate Covers(round: Round, names: set<string>, here: set<string>) {
    && Threads(round.order, round.hows, here) && Distinct(round.order)
    && (forall n :: n in round.order ==> n in names) && (forall n :: n in names ==> n in round.order)
  }

  /** Every send goes to a viewer, on the thread that it is on. */
  predicate Scheduled(todo: seq<Gift>, names: set<string>, here: set<string>) {
    forall g :: g in todo ==> g.name in names && (g.how.OnLoop? <==> g.name in here)
  }

  lemma {:induction false} WalkReaches(order: seq<string>, hows: seq<How>, bytes: seq<Byte>, names: set<string>,
                                       here: set<string>)
    requires |hows| == |order| && Distinct(order) && Threads(order, hows, here)
    requires forall n :: n in order ==> n in names
    ensures Scheduled(Walk(order, hows, bytes), names, here)
    ensures forall n :: DueTo(Walk(order, hows, bytes), n) == if n in order then bytes else []
  {
    if order != [] {
      WalkReaches(order[1..], hows[1..], bytes, names, here);
      assert order == [order[0]] + order[1..];
      var walk := Walk(order, hows, bytes);
      assert walk[1..] == Walk(order[1..], hows[1..], bytes);
      assert bytes + [] == bytes;
    }
  }

  lemma NothingDue()
    ensures forall n :: DueTo([], n) == []
    ensures Frames(Payloads([])) == []
  {
  }

  lemma FirstFrame(tags: seq<Tag>)
    requires tags != []
    ensures Frames(Payloads(tags)) == TagFrame(tags[0]) + Frames(Payloads(tags[1..]))
  {
    assert Payloads(tags)[1..] == Payloads(tags[1..]);
  }

  lemma {:induction false} WalksReach(tags: seq<Tag>, rounds: seq<Round>, names: set<string>, here: set<string>)
    requires |rounds| == |tags| && forall i :: 0 <= i < |rounds| ==> Covers(rounds[i], names, here)
    ensures Scheduled(Walks(tags, rounds), names, here)
    ensures forall n :: n in names ==> DueTo(Walks(tags, rounds), n) == Frames(Payloads(tags))
  {
    hide TagFrame, DueTo;
    if tags == [] {
      NothingDue();
    } else {
      var walk, more := Walk(rounds[0].order, rounds[0].hows, TagFrame(tags[0])), Walks(tags[1..], rounds[1..]);
      WalkReaches(rounds[0].order, rounds[0].hows, TagFrame(tags[0]), names, here);
      WalksReach(tags[1..], rounds[1..], names, here);
      forall n | n in names
        ensures DueTo(walk + more, n) == Frames(Payloads(tags))
      {
        DueToAppend(walk, more, n);
        FirstFrame(tags);
      }
    }
  }

  /** The room as it will be when everything is handed over, if nobody is lost meanwhile. */
  function Ahead(r: Room, todo: seq<Gift>): Room {
    r.(viewers := map n | n in r.viewers :: r.viewers[n].Give(DueTo(todo, n)))
  }

  lemma AheadOfNothing(r: Room)
    ensures Ahead(r, []) == r
  {
    assert forall v: Viewer :: v.sent + [] == v.sent;
  }

  /** The tags are published, and every viewer still waits for them. */
  function Promised(r: Room, tags: seq<Tag>): Room {
    PublishAll(r, tags).(viewers := r.viewers)
  }

  lemma AheadOfTags(r: Room, tags: seq<Tag>, rounds: seq<Round>, here: set<string>)
    requires |rounds| == |tags| && forall i :: 0 <= i < |rounds| ==> Covers(rounds[i], r.viewers.Keys, here)
    ensures Ahead(Promised(r, tags), Walks(tags, rounds)) == PublishAll(r, tags)
    ensures Scheduled(Walks(tags, rounds), r.viewers.Keys, here)
  {
    hide Walks, DueTo, Scheduled, Covers;
    WalksReach(tags, rounds, r.viewers.Keys, here);
    PublishAllShows(r, tags);
  }

  /** One send less to do, and its bytes given: the room ahead is the same. */
  function Given(r: Room, g: Gift): Room
    requires g.name in r.viewers
  {
    r.(viewers := r.viewers[g.name := r.viewers[g.name].Give(g.bytes)])
  }

  lemma AheadOfGiven(r: Room, todo: seq<Gift>)
    requires todo != [] && todo[0].name in r.viewers
    ensures Ahead(Given(r, todo[0]), todo[1..]) == Ahead(r, todo)
  {
    var g := todo[0];
    var r' := Given(r, g);
    forall n | n in r.viewers
      ensures r'.viewers[n].Give(DueTo(todo[1..], n)) == r.viewers[n].Give(DueTo(todo, n))
    {
      var v := r.viewers[n];
      assert v.sent + (g.bytes + DueTo(todo[1..], n)) == v.sent + g.bytes + DueTo(todo[1..], n);
      assert [] + DueTo(todo[1..], n) == DueTo(todo[1..], n);
    }
  }

  // ---------------------------------------------------------------- losing viewers

  /** `r'` has lost viewers, or some of what they would have been sent. */
  predicate Shrinks(r: Room, r': Room) {
    && r' == r.(viewers := r'.viewers)
    && forall n :: n in r'.viewers ==>
        && n in r.viewers && r'.viewers[n].from == r.viewers[n].from && r'.viewers[n].sent <= r.viewers[n].sent
        && (r'.viewers[n].open ==> r'.viewers[n] == r.viewers[n])
  }

  lemma ShrunkServes(r: Room, r': Room)
    requires Served(r) && Shrinks(r, r')
    ensures Served(r')
  {
    SameHeadersSameStream(r, r');
    forall n | n in r'.viewers
      ensures ViewerServed(r'.viewers[n], Stream(r'), Announced(r'), r'.published)
    {
      assert ViewerServed(r.viewers[n], Stream(r), Announced(r), r.published);
    }
  }

  /** The viewers notice what has become of their connections. */
  function Synced(r: Room, ls: Loops): Room {
    r.(viewers := map n | n in r.viewers :: r.viewers[n].(open := IsOpen(On(ls, n), n)))
  }

  lemma SyncedShrinks(r: Room, ls: Loops, todo: seq<Gift>)
    requires forall n :: n in r.viewers && IsOpen(On(ls, n), n) ==> r.viewers[n].open
    ensures Shrinks(Ahead(r, todo), Ahead(Synced(r, ls), todo))
  {
  }

  // ---------------------------------------------------------------- rooms and connections agree

  /** What a connection had submitted when it joined, and what its room has sent it since. On the
      publisher's own loop nothing is ever queued. */
  predicate ViewerAgrees(v: Viewer, before: seq<Byte>, w: World, n: string, here: set<string>) {
    && n in w.connections && w.connections[n].status != CONNECTING
    && w.connections[n].submitted == before + v.sent && (v.open <==> w.connections[n].status == CONNECTED)
    && (n in here && v.open ==> Queued(w, n) == [])
  }

  predicate Agrees(r: Room, base: map<string, seq<Byte>>, ls: Loops, here: set<string>) {
    && AllConserved(ls) && (forall n :: n in r.viewers ==> n in base)
    && forall n :: n in r.viewers ==> ViewerAgrees(r.viewers[n], base[n], On(ls, n), n, here)
  }

  /** A viewer that a send to another one leaves alone. */
  lemma OthersAgree(v: Viewer, before: seq<Byte>, w: World, w': World, m: string, n: string, here: set<string>)
    requires ViewerAgrees(v, before, w, m, here) && OnlyOne(w, w', n) && m != n
    ensures ViewerAgrees(v, before, w', m, here)
  {
    hide Queued;
  }

  lemma TargetAgrees(v: Viewer, before: seq<Byte>, w: World, here: set<string>, g: Gift)
    requires ViewerAgrees(v, before, w, g.name, here) && Conserved(w) && g.name !in w.held
    requires g.how.OnLoop? <==> g.name in here
    ensures var w' := Made(w, g);
      && Conserved(w') && OnlyOne(w, w', g.name)
      && ViewerAgrees(v.Give(g.bytes).(open := IsOpen(w', g.name)), before, w', g.name, here)
      && (IsOpen(w', g.name) ==> v.open)
  {
    hide Conserved, Queued, Made;
    MadeSubmits(w, g);
    assert before + v.sent + g.bytes == before + (v.sent + g.bytes);
  }

  lemma AgreesOn(v: Viewer, before: seq<Byte>, w: World, n: string, here: set<string>)
    requires ViewerAgrees(v, before, w, n, here)
    ensures n in w.connections && (v.open <==> IsOpen(w, n))
  {
  }

  /** The publisher's loop makes its next send. */
  lemma MadeAgrees(r: Room, base: map<string, seq<Byte>>, ls: Loops, here: set<string>, g: Gift)
    requires Agrees(r, base, ls, here) && g.name in r.viewers && (g.how.OnLoop? <==> g.name in here)
    requires g.name !in On(ls, g.name).held
    ensures var ls' := PutOn(ls, g.name, Made(On(ls, g.name), g));
      && Agrees(Synced(Given(r, g), ls'), base, ls', here)
      && forall n :: n in r.viewers && IsOpen(On(ls', n), n) ==> Given(r, g).viewers[n].open
  {
    hide ViewerAgrees, AllConserved, Conserved, Made, OnlyOne;
    var n, w := g.name, On(ls, g.name);
    AgreesOn(r.viewers[n], base[n], w, n, here);
    HomeIs(ls, n, Made(w, g));
    TargetAgrees(r.viewers[n], base[n], w, here, g);
    var ls' := PutOn(ls, n, Made(w, g));
    var r' := Synced(Given(r, g), ls');
    PutIs(ls, ls.home[n], Made(w, g), n);
    forall m | m in r.viewers
      ensures ViewerAgrees(r'.viewers[m], base[m], On(ls', m), m, here)
      ensures IsOpen(On(ls', m), m) ==> Given(r, g).viewers[m].open
    {
      PutIs(ls, ls.home[n], Made(w, g), m);
      if m != n {
        if m in ls.home && ls.home[m] == ls.home[n] {
          OthersAgree(r.viewers[m], base[m], w, Made(w, g), m, n, here);
        }
        AgreesOn(r.viewers[m], base[m], On(ls', m), m, here);
      }
    }
  }

  // ---------------------------------------------------------------- joining

  /** Two sends on the connection's own loop, each dropped if it is no longer CONNECTED, and the viewer
      that this makes of it. */
  datatype Welcome = Welcome(world: World, viewer: Viewer)

  function Welcomed(w: World, n: string, header: seq<Byte>, frame: seq<Byte>, first: Answer, second: Answer,
                    from: nat): Welcome {
    var w1 := Made(w, Gift(n, header, OnLoop(first)));
    var w2 := Made(w1, Gift(n, frame, OnLoop(second)));
    var v := Viewer(IsOpen(w, n), [], from).Give(header).(open := IsOpen(w1, n)).Give(frame).(open := IsOpen(w2, n));
    Welcome(w2, v)
  }

  lemma WelcomedAgrees(w: World, n: string, header: seq<Byte>, frame: seq<Byte>, first: Answer, second: Answer,
                       from: nat, here: set<string>)
    requires Conserved(w) && n in w.connections && w.connections[n].status != CONNECTING
    requires IsOpen(w, n) ==> Queued(w, n) == []
    ensures var c := Welcomed(w, n, header, frame, first, second, from);
      && Conserved(c.world) && OnlyOne(w, c.world, n)
      && ViewerAgrees(c.viewer, w.connections[n].submitted, c.world, n, here)
      && c.viewer.from == from && c.viewer.sent <= header + frame && (c.viewer.open ==> c.viewer.sent == header + frame)
  {
    hide Conserved, Made, Queued;
    var before := w.connections[n].submitted;
    MadeSubmits(w, Gift(n, header, OnLoop(first)));
    MadeSubmits(Made(w, Gift(n, header, OnLoop(first))), Gift(n, frame, OnLoop(second)));
    assert [] + header == header && before + [] == before && before + header + frame == before + (header + frame);
  }

  /** A room, its connections, and what they had submitted before they joined. */
  datatype Scene = Scene(room: Room, loops: Loops, base: map<string, seq<Byte>>)

  /** A join, on the newcomer's loop: the header stream, and then the last tag. */
  function Newcomer(r: Room, base: map<string, seq<Byte>>, ls: Loops, n: string, first: Answer, second: Answer): Scene
    requires r.last.Some? && r.published != [] && n in On(ls, n).connections
  {
    var all, w := FanOut.Join(r, n, true), On(ls, n);
    var c := Welcomed(w, n, all.cache, TagFrame(all.last.value), first, second, |r.published| - 1);
    Scene(all.(viewers := all.viewers[n := c.viewer]), PutOn(ls, n, c.world), base[n := w.connections[n].submitted])
  }

  /** A connection can become a viewer behind the first tag, and become one again, when nothing is queued
      for it: its loop sends the header stream at once. */
  predicate CanJoin(r: Room, w: World, n: string) {
    && r.last.Some? && r.published != []
    && n in w.connections && w.connections[n].status != CONNECTING && (IsOpen(w, n) ==> Queued(w, n) == [])
  }

  lemma NewcomerShrinks(r: Room, base: map<string, seq<Byte>>, ls: Loops, n: string, first: Answer, second: Answer)
    requires Conserved(On(ls, n)) && CanJoin(r, On(ls, n), n)
    ensures Shrinks(FanOut.Join(r, n, true), Newcomer(r, base, ls, n, first, second).room)
  {
    hide Conserved, TagFrame, Welcomed, Queued;
    var all := FanOut.Join(r, n, true);
    WelcomedAgrees(On(ls, n), n, all.cache, TagFrame(all.last.value), first, second, |r.published| - 1, {});
    assert [] + all.cache == all.cache;
  }

  lemma NewcomerAgrees(r: Room, base: map<string, seq<Byte>>, ls: Loops, n: string, first: Answer, second: Answer,
                       here: set<string>)
    requires Agrees(r, base, ls, here) && Served(r) && CanJoin(r, On(ls, n), n)
    ensures var s := Newcomer(r, base, ls, n, first, second);
      && Agrees(s.room, s.base, s.loops, here) && s.loops.home == ls.home
      && Served(s.room) && Shrinks(FanOut.Join(r, n, true), s.room)
  {
    hide Served, Conserved, AllConserved, ViewerAgrees, OnlyOne, TagFrame, Welcomed, FanOut.Join, Queued;
    var all, w := FanOut.Join(r, n, true), On(ls, n);
    JoinChangesNoOther(r, n, true);
    JoinServes(r, n, true);
    var c := Welcomed(w, n, all.cache, TagFrame(all.last.value), first, second, |r.published| - 1);
    HomeIs(ls, n, c.world);
    WelcomedAgrees(w, n, all.cache, TagFrame(all.last.value), first, second, |r.published| - 1, here);
    NewcomerShrinks(r, base, ls, n, first, second);
    var s := Newcomer(r, base, ls, n, first, second);
    PutIs(ls, ls.home[n], c.world, n);
    forall m | m in s.room.viewers
      ensures m in s.base && ViewerAgrees(s.room.viewers[m], s.base[m], On(s.loops, m), m, here)
    {
      PutIs(ls, ls.home[n], c.world, m);
      if m != n && m in ls.home && ls.home[m] == ls.home[n] {
        OthersAgree(r.viewers[m], base[m], w, c.world, m, n, here);
      }
    }
    ShrunkServes(all, s.room);
  }

  // ---------------------------------------------------------------- what the loops and the kernel do

  /** The event of loop `l` does not submit anything for a viewer; that is what rooms are for. */
  predicate Outside(r: Room, ls: Loops, l: nat, e: SendPipeline.Event) {
    (e.Begin? || e.SendHere?) && e.name in r.viewers && e.name in ls.home ==> ls.home[e.name] != l
  }

  /** What a connection is behind such an event. */
  predicate Kept(c: Connection, d: Connection) {
    && d.submitted == c.submitted
    && (d.status == CONNECTED ==> c.status == CONNECTED) && (d.status == CONNECTING ==> c.status == CONNECTING)
  }

  lemma SendInLoopKeeps(c: Connection, data: seq<Byte>, a: Answer)
    ensures Kept(c, SendInLoop(c, data, a)) && Kept(c, Writable(c, a))
  {
  }

  lemma OutsideKeeps(w: World, e: SendPipeline.Event, n: string)
    requires SendPipeline.Enabled(w, e) && (e.Begin? || e.SendHere? ==> e.name != n)
    requires n in w.connections && w.connections[n].status != CONNECTING
    ensures var w' := SendPipeline.Step(w, e);
      && n in w'.connections && Kept(w.connections[n], w'.connections[n])
      && (Queued(w, n) == [] ==> Queued(w', n) == [])
  {
    hide SendInLoop, Writable;
    match e
    case RunTask(answer) => SendInLoopKeeps(w.connections[w.batch[0].name], w.batch[0].data, answer);
    case CanWrite(m, answer) => SendInLoopKeeps(w.connections[m], [], answer);
    case Push(m) => PushKeepsQueued(w, m, n);
    case _ =>
  }

  /** A viewer of the loop on which the event happens. */
  lemma StaysAgreed(v: Viewer, before: seq<Byte>, w: World, e: SendPipeline.Event, n: string, here: set<string>)
    requires ViewerAgrees(v, before, w, n, here)
    requires SendPipeline.Enabled(w, e) && (e.Begin? || e.SendHere? ==> e.name != n)
    ensures var w' := SendPipeline.Step(w, e);
      ViewerAgrees(v.(open := IsOpen(w', n)), before, w', n, here) && (IsOpen(w', n) ==> v.open)
  {
    hide SendPipeline.Step, SendPipeline.Enabled, Queued;
    OutsideKeeps(w, e, n);
  }

  lemma OutsideAgrees(r: Room, base: map<string, seq<Byte>>, ls: Loops, l: nat, e: SendPipeline.Event,
                      here: set<string>)
    requires Agrees(r, base, ls, here) && l < |ls.worlds| && Outside(r, ls, l, e)
    requires SendPipeline.Enabled(ls.worlds[l], e) && InTurn(ls.worlds[l], e)
    ensures var ls' := Put(ls, l, SendPipeline.Step(ls.worlds[l], e));
      && Agrees(Synced(r, ls'), base, ls', here)
      && forall n :: n in r.viewers && IsOpen(On(ls', n), n) ==> r.viewers[n].open
  {
    hide Conserved, ViewerAgrees, SendPipeline.Step, SendPipeline.Enabled, InTurn;
    var w := ls.worlds[l];
    StepConserves(w, e);
    var w' := SendPipeline.Step(w, e);
    var ls' := Put(ls, l, w');
    forall n | n in r.viewers
      ensures ViewerAgrees(Synced(r, ls').viewers[n], base[n], On(ls', n), n, here)
      ensures IsOpen(On(ls', n), n) ==> r.viewers[n].open
    {
      PutIs(ls, l, w', n);
      AgreesOn(r.viewers[n], base[n], On(ls, n), n, here);
      if n in ls.home && ls.home[n] == l {
        StaysAgreed(r.viewers[n], base[n], w, e, n, here);
      }
    }
  }

  // ---------------------------------------------------------------- everything together

  /** The live stream, the sends that the publisher's loop has yet to make, all loops with their connections,
      which of them is the publisher's, and what the viewers' connections had submitted when they joined. */
  datatype Joint = Joint(live: Live, todo: seq<Gift>, loops: Loops, own: nat, base: map<string, seq<Byte>>) {
    /** The connections that are bound to the publisher's loop. */
    function Here(): set<string> {
      set n | n in loops.home && loops.home[n] == own
    }
  }

  datatype JointEvent =
    | Arrives(bytes: seq<Byte>)
    | Parses(locals: Publisher.Locals, rounds: seq<Round>)
    | Gives
    | Comes(name: string, first: Answer, second: Answer)
    | Goes(name: string)
    | Sends(loop: nat, event: SendPipeline.Event)

  predicate Sane(l: Live, locals: Publisher.Locals) {
    l.state.Valid() && Publisher.InBounds(l.state, l.buf, locals)
  }

  /** The publisher's loop is between two sends. */
  predicate HandsFree(j: Joint) {
    forall n :: n in j.live.room.viewers ==> n !in On(j.loops, n).held
  }

  /** The publisher's loop is not inside of a ParseData. */
  predicate Idle(j: Joint) {
    j.todo == [] && HandsFree(j)
  }

  /** What the surroundings are asked for: every viewer is walked over once, the map changes only between
      two calls of ParseData, viewers come after the first tag, and nobody else sends to a viewer. */
  predicate Orderly(j: Joint, e: JointEvent) {
    match e
    case Parses(locals, rounds) =>
      Idle(j) &&
      (Sane(j.live, locals) ==>
        && |rounds| == |Publisher.Call(j.live.state, j.live.buf, locals).tags|
        && forall i :: 0 <= i < |rounds| ==> Covers(rounds[i], j.live.room.viewers.Keys, j.Here()))
    case Gives => j.todo != [] && HandsFree(j)
    case Comes(n, _, _) => Idle(j) && CanJoin(j.live.room, On(j.loops, n), n)
    case Goes(n) => Idle(j)
    case Sends(l, event) =>
      && l < |j.loops.worlds| && Outside(j.live.room, j.loops, l, event)
      && SendPipeline.Enabled(j.loops.worlds[l], event) && InTurn(j.loops.worlds[l], event)
    case _ => true
  }

  predicate CanHappen(j: Joint, e: JointEvent) {
    && Orderly(j, e) && (e.Parses? ==> Sane(j.live, e.locals))
    && (e.Gives? ==> j.todo[0].name in j.live.room.viewers)
  }

  function Happens(j: Joint, e: JointEvent): Joint
    requires CanHappen(j, e)
  {
    match e
    case Arrives(bytes) => j.(live := j.live.(buf := j.live.buf + bytes))
    case Parses(locals, rounds) =>
      var r := Publisher.Call(j.live.state, j.live.buf, locals);
      var room := Promised(j.live.room.(headers := r.state.headers), r.tags);
      j.(live := Live(r.state, r.rest, room), todo := Walks(r.tags, rounds))
    case Gives =>
      var g := j.todo[0];
      var ls := PutOn(j.loops, g.name, Made(On(j.loops, g.name), g));
      j.(live := j.live.(room := Synced(Given(j.live.room, g), ls)), todo := j.todo[1..], loops := ls)
    case Comes(n, first, second) =>
      var s := Newcomer(j.live.room, j.base, j.loops, n, first, second);
      var state := j.live.state.(headers := s.room.headers);
      j.(live := j.live.(state := state, room := s.room), loops := s.loops, base := s.base)
    case Goes(n) => j.(live := j.live.(room := FanOut.Leave(j.live.room, n)))
    case Sends(l, event) =>
      var ls := Put(j.loops, l, SendPipeline.Step(j.loops.worlds[l], event));
      j.(live := j.live.(room := Synced(j.live.room, ls)), loops := ls)
  }

  predicate CanRun(j: Joint, events: seq<JointEvent>)
    decreases |events|
  {
    events == [] || (CanHappen(j, events[0]) && CanRun(Happens(j, events[0]), events[1..]))
  }

  function JointRun(j: Joint, events: seq<JointEvent>): Joint
    requires CanRun(j, events)
    decreases |events|
  {
    if events == [] then j else JointRun(Happens(j, events[0]), events[1..])
  }

  predicate OrderlyRun(j: Joint, events: seq<JointEvent>)
    decreases |events|
  {
    events == [] ||
      (Orderly(j, events[0]) && (CanHappen(j, events[0]) ==> OrderlyRun(Happens(j, events[0]), events[1..])))
  }

  /** The publisher's events. */
  function OwnEvent(e: JointEvent): seq<PublisherRuns.Event> {
    match e
    case Arrives(bytes) => [PublisherRuns.Arrive(bytes)]
    case Parses(locals, _) => [PublisherRuns.Parse(locals)]
    case _ => []
  }

  function OwnEvents(events: seq<JointEvent>): seq<PublisherRuns.Event> {
    if events == [] then [] else OwnEvent(events[0]) + OwnEvents(events[1..])
  }

  /** The live stream as it will be when all sends are made. */
  function Coming(j: Joint): Live {
    j.live.(room := Ahead(j.live.room, j.todo))
  }

  /** Kept by every event: up to the sends that are still to be made the live stream is where the
      publisher's run is, the room's bytes are the connections' bytes, and the response header stays. */
  predicate InStep(j: Joint, p: PublisherRuns.Progress, response: seq<Byte>) {
    && Matches(Coming(j), p) && Agrees(j.live.room, j.base, j.loops, j.Here())
    && Scheduled(j.todo, j.live.room.viewers.Keys, j.Here()) && j.live.room.response == response
  }

  lemma ShrunkMatches(l: Live, p: PublisherRuns.Progress, room: Room)
    requires Matches(l, p) && Shrinks(l.room, room)
    ensures Matches(l.(room := room), p)
  {
    hide Served;
    ShrunkServes(l.room, room);
  }

  lemma ParsesInStep(j: Joint, p: PublisherRuns.Progress, response: seq<Byte>, locals: Publisher.Locals,
                     rounds: seq<Round>)
    requires InStep(j, p, response) && Publisher.InBounds(p.state, p.buf, locals) && Orderly(j, Parses(locals, rounds))
    ensures Sane(j.live, locals)
    ensures InStep(Happens(j, Parses(locals, rounds)), PublisherRuns.Step(p, PublisherRuns.Parse(locals)), response)
  {
    hide Served, Publisher.Call, PublishAll, Conserved, Ahead, Walks, Scheduled;
    AheadOfNothing(j.live.room);
    ParsedMatches(j.live, p, locals);
    var r := Publisher.Call(j.live.state, j.live.buf, locals);
    var room := j.live.room.(headers := r.state.headers);
    AheadOfTags(room, r.tags, rounds, j.Here());
    PublishAllShows(room, r.tags);
  }

  lemma GivesInStep(j: Joint, p: PublisherRuns.Progress, response: seq<Byte>)
    requires InStep(j, p, response) && Orderly(j, Gives)
    ensures CanHappen(j, Gives) && InStep(Happens(j, Gives), p, response)
  {
    hide Agrees, Matches, Ahead, Made;
    var g, r := j.todo[0], j.live.room;
    assert g in j.todo;
    MadeAgrees(r, j.base, j.loops, j.Here(), g);
    AheadOfGiven(r, j.todo);
    var ls := PutOn(j.loops, g.name, Made(On(j.loops, g.name), g));
    SyncedShrinks(Given(r, g), ls, j.todo[1..]);
    ShrunkMatches(Coming(j), p, Ahead(Synced(Given(r, g), ls), j.todo[1..]));
  }

  lemma ComesInStep(j: Joint, p: PublisherRuns.Progress, response: seq<Byte>, n: string, first: Answer, second: Answer)
    requires InStep(j, p, response) && Orderly(j, Comes(n, first, second))
    ensures InStep(Happens(j, Comes(n, first, second)), p, response)
  {
    hide Served, Agrees, Newcomer, Ahead;
    var s := Newcomer(j.live.room, j.base, j.loops, n, first, second);
    AheadOfNothing(j.live.room);
    AheadOfNothing(s.room);
    NewcomerAgrees(j.live.room, j.base, j.loops, n, first, second, j.Here());
    JoinedMatches(j.live, p, n, true);
    ShrunkMatches(Joined(j.live, n, true), p, s.room);
  }

  lemma GoesInStep(j: Joint, p: PublisherRuns.Progress, response: seq<Byte>, n: string)
    requires InStep(j, p, response) && Orderly(j, Goes(n))
    ensures InStep(Happens(j, Goes(n)), p, response)
  {
    hide Served, Conserved, Ahead;
    AheadOfNothing(j.live.room);
    AheadOfNothing(FanOut.Leave(j.live.room, n));
    LeaveServes(j.live.room, n);
  }

  lemma SendsInStep(j: Joint, p: PublisherRuns.Progress, response: seq<Byte>, l: nat, e: SendPipeline.Event)
    requires InStep(j, p, response) && Orderly(j, Sends(l, e))
    ensures InStep(Happens(j, Sends(l, e)), p, response)
  {
    hide Agrees, Matches, Ahead, SendPipeline.Step, SendPipeline.Enabled;
    OutsideAgrees(j.live.room, j.base, j.loops, l, e, j.Here());
    var ls := Put(j.loops, l, SendPipeline.Step(j.loops.worlds[l], e));
    SyncedShrinks(j.live.room, ls, j.todo);
    ShrunkMatches(Coming(j), p, Ahead(Synced(j.live.room, ls), j.todo));
  }

  lemma ArrivesInStep(j: Joint, p: PublisherRuns.Progress, response: seq<Byte>, bytes: seq<Byte>)
    requires InStep(j, p, response)
    ensures InStep(Happens(j, Arrives(bytes)), p.(buf := p.buf + bytes), response)
  {
    hide Served, Conserved, Ahead;
  }

  lemma HappensInStep(j: Joint, p: PublisherRuns.Progress, response: seq<Byte>, e: JointEvent)
    requires InStep(j, p, response) && Orderly(j, e) && PublisherRuns.SaneRun(p, OwnEvent(e))
    ensures CanHappen(j, e) && InStep(Happens(j, e), PublisherRuns.Run(p, OwnEvent(e)), response)
  {
    hide InStep, Idle, HandsFree, CanJoin, Publisher.Call, Walks, Newcomer, SendPipeline.Step, SendPipeline.Enabled;
    match e
    case Arrives(bytes) => ArrivesInStep(j, p, response, bytes);
    case Parses(locals, rounds) => ParsesInStep(j, p, response, locals, rounds);
    case Gives => GivesInStep(j, p, response);
    case Comes(n, first, second) => ComesInStep(j, p, response, n, first, second);
    case Goes(n) => GoesInStep(j, p, response, n);
    case Sends(l, event) => SendsInStep(j, p, response, l, event);
  }

  lemma OwnFirst(p: PublisherRuns.Progress, events: seq<JointEvent>)
    requires events != [] && PublisherRuns.SaneRun(p, OwnEvents(events))
    ensures PublisherRuns.SaneRun(p, OwnEvent(events[0]))
    ensures var q := PublisherRuns.Run(p, OwnEvent(events[0]));
      && PublisherRuns.SaneRun(q, OwnEvents(events[1..]))
      && PublisherRuns.Run(p, OwnEvents(events)) == PublisherRuns.Run(q, OwnEvents(events[1..]))
  {
    var first, more := OwnEvent(events[0]), OwnEvents(events[1..]);
    if |first| == 1 {
      assert (first + more)[0] == first[0] && (first + more)[1..] == more && first[1..] == [];
    } else {
      assert first + more == more;
    }
  }

  lemma {:induction false} RunInStep(j: Joint, p: PublisherRuns.Progress, response: seq<Byte>, events: seq<JointEvent>)
    requires InStep(j, p, response) && OrderlyRun(j, events) && PublisherRuns.SaneRun(p, OwnEvents(events))
    ensures CanRun(j, events) && InStep(JointRun(j, events), PublisherRuns.Run(p, OwnEvents(events)), response)
    decreases |events|
  {
    hide InStep, Publisher.Call, Orderly, Happens;
    if events != [] {
      OwnFirst(p, events);
      HappensInStep(j, p, response, events[0]);
      RunInStep(Happens(j, events[0]), PublisherRuns.Run(p, OwnEvent(events[0])), response, events[1..]);
    }
  }

  // ---------------------------------------------------------------- who is there

  predicate Moves(e: JointEvent, name: string) {
    (e.Comes? || e.Goes?) && e.name == name
  }

  predicate NoneMoves(events: seq<JointEvent>, name: string) {
    forall e :: e in events ==> !Moves(e, name)
  }

  lemma HappensKeepsMember(j: Joint, e: JointEvent, name: string)
    requires CanHappen(j, e) && !Moves(e, name)
    ensures name in Happens(j, e).live.room.viewers <==> name in j.live.room.viewers
    ensures name in j.live.room.viewers ==>
      Happens(j, e).live.room.viewers[name].from == j.live.room.viewers[name].from
  {
    hide Publisher.Call, Walks, PublishAll, Welcomed, Made, FanOut.Join, FanOut.Leave;
    hide SendPipeline.Step, SendPipeline.Enabled;
    match e
    case Comes(n, first, second) => JoinChangesNoOther(j.live.room, n, true);
    case Goes(n) => LeaveChangesNoOther(j.live.room, n);
    case _ =>
  }

  lemma {:induction false} RunKeepsMember(j: Joint, events: seq<JointEvent>, name: string)
    requires CanRun(j, events) && NoneMoves(events, name)
    ensures name in JointRun(j, events).live.room.viewers <==> name in j.live.room.viewers
    ensures name in j.live.room.viewers ==>
      JointRun(j, events).live.room.viewers[name].from == j.live.room.viewers[name].from
    decreases |events|
  {
    hide Happens, CanHappen;
    if events != [] {
      assert events[0] in events;
      HappensKeepsMember(j, events[0], name);
      RunKeepsMember(Happens(j, events[0]), events[1..], name);
    }
  }

  lemma WelcomedFrom(w: World, n: string, header: seq<Byte>, frame: seq<Byte>, first: Answer, second: Answer, from: nat)
    ensures Welcomed(w, n, header, frame, first, second, from).viewer.from == from
  {
    hide Made;
  }

  lemma NewcomerIsThere(j: Joint, n: string, first: Answer, second: Answer)
    requires CanHappen(j, Comes(n, first, second))
    ensures var r := Happens(j, Comes(n, first, second)).live.room;
      n in r.viewers && r.viewers[n].from == |j.live.room.published| - 1
  {
    hide TagFrame, FanOut.Join, Welcomed, Queued, On;
    var all, w := FanOut.Join(j.live.room, n, true), On(j.loops, n);
    JoinChangesNoOther(j.live.room, n, true);
    WelcomedFrom(w, n, all.cache, TagFrame(all.last.value), first, second, |j.live.room.published| - 1);
  }

  /** Who has come and not gone since is among the viewers that ViewersWatch speaks of, and watches all tags from
      the last one before its coming on; who has gone and not come since is not. */
  lemma MembersAreThere(j: Joint, e: JointEvent, later: seq<JointEvent>, name: string)
    requires CanHappen(j, e) && CanRun(Happens(j, e), later) && Moves(e, name) && NoneMoves(later, name)
    ensures var viewers := JointRun(Happens(j, e), later).live.room.viewers;
      && (name in viewers <==> e.Comes?)
      && (e.Comes? ==> j.live.room.published != [] && viewers[name].from == |j.live.room.published| - 1)
  {
    hide JointRun, Newcomer, On;
    RunKeepsMember(Happens(j, e), later, name);
    if e.Comes? {
      NewcomerIsThere(j, name, e.first, e.second);
    } else {
      LeaveChangesNoOther(j.live.room, name);
    }
  }

  // ---------------------------------------------------------------- from end to end

  /** `count` loops, all their connections, and the publisher on one of them. */
  datatype Setting = Setting(count: nat, home: map<string, nat>, own: nat) {
    function Names(l: nat): set<string> {
      set n | n in home && home[n] == l
    }

    function Begin(): Loops {
      Loops(seq(count, l requires 0 <= l < count => SendPipeline.Start(Names(l))), home)
    }
  }

  function Begun(response: seq<Byte>, s: Publisher.State, setting: Setting): Joint {
    Joint(Server.Start(response, s), [], setting.Begin(), setting.own, map[])
  }

  lemma BegunInStep(response: seq<Byte>, s: Publisher.State, setting: Setting)
    requires PublisherRuns.Ready(s)
    ensures InStep(Begun(response, s, setting), PublisherRuns.Progress(s, [], []), response)
  {
    StartMatches(response, s);
  }

  /** What is on a viewer's wire since it joined: behind the response header, the beginning of the FLV file
      it is owed, and the whole file while the connection is CONNECTED and nothing is waiting. */
  predicate Watches(response: seq<Byte>, h: Headers, j: Joint, n: string) {
    var r, w := j.live.room, On(j.loops, n);
    && n in r.viewers && n in w.connections && n in j.base && r.viewers[n].from < |r.published|
    && var wire, begin := w.connections[n].wire, |j.base[n] + response|;
       var tags := StreamTags(h, r.published, r.viewers[n].from);
    && (begin <= |wire| ==>
        var flv := Unchunk(wire[begin..]);
        flv <= FlvFile(tags) && PlaysPart(flv, AllPlayed(tags)))
    && (w.connections[n].status == CONNECTED && w.connections[n].sendBuffer == [] && Queued(w, n) == []
        && DueTo(j.todo, n) == [] ==>
        j.base[n] + response <= wire && Unchunk(wire[begin..]) == FlvFile(tags))
    && PlaysAs(FlvFile(tags), tags)
  }

  lemma BehindBase(base: seq<Byte>, sent: seq<Byte>, wire: seq<Byte>, n: nat)
    requires wire <= base + sent && |base| + n <= |wire|
    ensures base <= wire && wire[|base|..] <= sent && wire[|base| + n..] == wire[|base|..][n..]
  {
    assert (base + sent)[..|base|] == base;
  }

  lemma ConservesOn(w: World, n: string)
    requires Conserved(w) && n in w.connections
    ensures Conserves(w.connections[n], Queued(w, n))
  {
  }

  lemma AgreedWatches(response: seq<Byte>, h: Headers, j: Joint, n: string)
    requires Agrees(j.live.room, j.base, j.loops, j.Here()) && n in j.live.room.viewers
    requires Sees(response, h, j.live.room.published, Ahead(j.live.room, j.todo).viewers[n])
    ensures Watches(response, h, j, n)
  {
    hide Unchunk, FlvFile, PlaysAs, PlaysPart, Owed, StreamTags, Queued, HeaderStream, DueTo, On;
    hide Conserved, AllConserved;
    var r, w := j.live.room, On(j.loops, n);
    var v, v', c, base := r.viewers[n], Ahead(r, j.todo).viewers[n], w.connections[n], j.base[n];
    assert ViewerAgrees(v, base, w, n, j.Here());
    HomeIs(j.loops, n, w);
    ConservesOn(w, n);
    assert c.wire <= c.submitted == base + v.sent;
    if |base + response| <= |c.wire| {
      BehindBase(base, v.sent, c.wire, |response|);
      WirePlays(response, h, r.published, v', c.wire[|base|..]);
    }
    if c.status == CONNECTED && c.sendBuffer == [] && Queued(w, n) == [] && DueTo(j.todo, n) == [] {
      assert c.wire + [] + [] == c.wire && v.sent + [] == v.sent;
      var owed := Owed(HeaderStream(response, h), h.second.CurrentTagSize(), r.published, v.from);
      assert c.wire == base + owed;
      BehindBase(base, owed, c.wire, |response|);
      FrontAndRest(base, owed);
    }
  }

  lemma InStepWatches(j: Joint, p: PublisherRuns.Progress, response: seq<Byte>, s: Publisher.State,
                      lead: PublisherRuns.Lead)
    requires InStep(j, p, response) && s.track.Valid() && lead.Valid() && s.headers.script.PreviousTagSize() == 0
    requires p.state.leading || p.state.headers == PublisherRuns.Led(s, lead).headers
    requires Timeline.AllSized(p.tags) && Timeline.Chained(0, p.tags)
    ensures j.live.room.published == p.tags && j.live.buf == p.buf
    ensures j.live.state == p.state.(headers := j.live.state.headers)
    ensures forall n :: n in j.live.room.viewers ==> Watches(response, PublisherRuns.Led(s, lead).headers, j, n)
  {
    hide PublisherRuns.Lead.Formed, PublisherRuns.Led, Agrees, Sees, Watches, DueTo;
    MatchedSees(Coming(j), p, s, lead);
    forall n | n in j.live.room.viewers
      ensures Watches(response, PublisherRuns.Led(s, lead).headers, j, n)
    {
      AgreedWatches(response, PublisherRuns.Led(s, lead).headers, j, n);
    }
  }

  /** What a run on `received` comes to: the published tags are a prefix of the stream's, and all of them once
      the stream is received and a call would change nothing; and every viewer watches them. */
  predicate Delivers(response: seq<Byte>, s: Publisher.State, lead: PublisherRuns.Lead, stream: seq<Byte>,
                     received: seq<Byte>, j: Joint)
    requires PublisherRuns.Ready(s) && lead.Valid() && lead.Bytes() <= stream
  {
    && j.live.state.core.readChunk < Dechunker.RTMP_CHUNK_SIZE
    && j.live.room.published <= PublisherRuns.TagsOf(s, lead, stream)
    && (!j.live.state.leading && received == stream && Dechunker.Drained(j.live.state.core, j.live.buf) ==>
        j.live.room.published == PublisherRuns.TagsOf(s, lead, stream))
    && forall n :: n in j.live.room.viewers ==> Watches(response, PublisherRuns.Led(s, lead).headers, j, n)
  }

  /** From end to end: the publisher's stream cut in any way, the viewers coming and going between the calls
      of ParseData, its sends interleaved step by step with any number of loops, their tasks and the kernel,
      connections shut down or lost at any time. No call reads past the received bytes, the published tags are
      a prefix of the stream's and in the end all of them, and what is on the wire to each viewer's client is
      the beginning of an FLV file whose tags are the three leading messages and a gap-free segment of the
      stream's audio and video. */
  lemma ViewersWatch(response: seq<Byte>, s: Publisher.State, lead: PublisherRuns.Lead, stream: seq<Byte>,
                     setting: Setting, events: seq<JointEvent>)
    requires PublisherRuns.Follows(s, lead, stream, OwnEvents(events)) && Fresh(s)
    requires Dechunker.Future(s.core, stream[|lead.Bytes()|..]).contiguous
    requires OrderlyRun(Begun(response, s, setting), events)
    ensures CanRun(Begun(response, s, setting), events)
    ensures Delivers(response, s, lead, stream, PublisherRuns.Received(OwnEvents(events)),
                     JointRun(Begun(response, s, setting), events))
  {
    hide PublisherRuns.Lead.Formed, PublisherRuns.Lead.Bytes, PublisherRuns.Run, PublisherRuns.SaneRun;
    hide PublisherRuns.TagsOf, PublisherRuns.Led, Dechunker.Drained, Dechunker.Future;
    hide JointRun, CanRun, OrderlyRun, Sees, Watches, InStep;
    var p := PublisherRuns.Progress(s, [], []);
    PublisherRuns.PublishedIsPrefix(s, lead, stream, OwnEvents(events));
    PublisherRuns.PublishedIsSound(s, lead, stream, OwnEvents(events));
    BegunInStep(response, s, setting);
    RunInStep(Begun(response, s, setting), p, response, events);
    var j := JointRun(Begun(response, s, setting), events);
    InStepWatches(j, PublisherRuns.Run(p, OwnEvents(events)), response, s, lead);
  }

  /** The machine at the end of the handshake, with the bytes that it left unread. */
  function TakenOver(response: seq<Byte>, s: Publisher.State, setting: Setting,
                     buf: seq<Byte>): Joint {
    var begun := Begun(response, s, setting);
    begun.(live := begun.live.(buf := buf))
  }

  lemma ArriveFirst(tail: seq<Byte>, events: seq<JointEvent>)
    ensures PublisherRuns.Received(OwnEvents([Arrives(tail)] + events))
        == tail + PublisherRuns.Received(OwnEvents(events))
  {
    var own := [PublisherRuns.Arrive(tail)] + OwnEvents(events);
    assert ([Arrives(tail)] + events)[1..] == events && own[1..] == OwnEvents(events);
  }

  /** The same from the client's first byte on. The reads that bring the handshake and the beginning of the
      stream complete it if and only if releaseStream was complete before the last of them; then what they
      leave unread is where the stream begins. */
  lemma FromTheFirstByte(client: HandshakeClients.Client, tail: seq<Byte>, cuts: seq<HandshakeReads.Read>,
                         response: seq<Byte>, s: Publisher.State, lead: PublisherRuns.Lead, stream: seq<Byte>,
                         setting: Setting, events: seq<JointEvent>)
    requires client.Valid() && HandshakeReads.Total(cuts) == client.Bytes() + tail
    requires !HandshakeReads.CutsC3(client, cuts)
    requires PublisherRuns.Follows(s, lead, stream, OwnEvents([Arrives(tail)] + events)) && Fresh(s)
    requires Dechunker.Future(s.core, stream[|lead.Bytes()|..]).contiguous
    requires OrderlyRun(Begun(response, s, setting), [Arrives(tail)] + events)
    ensures var l := HandshakeReads.ReadRun(cuts);
      && (l.takesBody <==> HandshakeReads.Before(cuts) >= HandshakeReads.UpToRelease(client))
      && (l.takesBody ==>
          var j := TakenOver(response, s, setting, l.progress.buf);
          && l.progress.asked == 1
          && l.sent <= Handshake.Script(Handshake.Success)
          && (l.sent == Handshake.Script(Handshake.Success) <==>
              !HandshakeReads.Refused(client, cuts) && !HandshakeReads.Broken(cuts))
          && CanRun(j, events)
          && Delivers(response, s, lead, stream, tail + PublisherRuns.Received(OwnEvents(events)), JointRun(j, events)))
  {
    hide PublisherRuns.Lead.Formed, PublisherRuns.Lead.Bytes, Delivers, Handshake.Script, OrderlyRun, Dechunker.Future;
    hide HandshakeReads.CutsC3, HandshakeReads.ReadRun, HandshakeReads.UpToRelease;
    var all, begun := [Arrives(tail)] + events, Begun(response, s, setting);
    assert all[0] == Arrives(tail) && all[1..] == events;
    assert [] + tail == tail && client.Bytes() + tail + [] == client.Bytes() + tail;
    HandshakeReads.HandshakeSucceeds(client, tail, cuts, []);
    FrontAndRest(client.Bytes(), tail);
    assert Happens(begun, all[0]) == TakenOver(response, s, setting, tail);
    ArriveFirst(tail, events);
    ViewersWatch(response, s, lead, stream, setting, all);
  }
}
