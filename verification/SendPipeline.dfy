/**
 The way of a payload from Send to the wire as a state machine: producers on other threads queue
 tasks, the event loop takes the queue in batches and runs them, the kernel accepts any part of what
 it is offered or refuses it, and connections shut down or close at any time.
 */
module SendPipeline {
  import opened Bytes

  datatype Status = CONNECTING | CONNECTED | DISCONNECTING | DISCONNECTED

  datatype Errno = EWOULDBLOCK | EPIPE | ECONNRESET | OTHER_ERRNO

  /** What send(2) would take, and the `errno` that is read when it takes nothing. */
  datatype Answer = Answer(accepted: nat, errno: Errno) {
    predicate Fatal() { errno == EPIPE || errno == ECONNRESET }
  }

  /** `writing` is what `IsWriting` reads, the EPOLLOUT bit of the last returned event; `watching` is the
      bit that is registered; `shutWrite` says whether shutdown(2) was called. `wire` and `submitted` are
      what the kernel took and what was handed to Send while CONNECTED. */
  datatype Connection = Connection(
    status: Status, writing: bool, watching: bool, shutWrite: bool,
    sendBuffer: seq<Byte>, wire: seq<Byte>, submitted: seq<Byte>)

  const NEW_CONNECTION := Connection(CONNECTING, false, false, false, [], [], [])

  function Shutdown(c: Connection): Connection {
    if c.status == CONNECTED then c.(status := DISCONNECTING, shutWrite := c.shutWrite || !c.writing) else c
  }

  function SendInLoop(c: Connection, data: seq<Byte>, a: Answer): Connection {
    if c.status == DISCONNECTED || c.status == DISCONNECTING then c
    else
      var direct := !c.writing && c.sendBuffer == [];
      var k := if direct then Min(a.accepted, |data|) else 0;
      if direct && k == 0 && a.Fatal() then Shutdown(c)
      else if k == |data| then c.(wire := c.wire + data)
      else
        c.(wire := c.wire + data[..k], sendBuffer := c.sendBuffer + data[k..], watching := c.watching || !c.writing)
  }

  /** OnWritable. Its Shutdown at the end only ever finds a connection that is shutting down already. */
  function Writable(c: Connection, a: Answer): Connection {
    var k := Min(a.accepted, |c.sendBuffer|);
    if !c.writing || k == 0 then c
    else
      var sent := c.(wire := c.wire + c.sendBuffer[..k], sendBuffer := c.sendBuffer[k..]);
      if sent.sendBuffer != [] then sent
      else if c.status == DISCONNECTING then Shutdown(sent.(watching := false))
      else sent.(watching := false)
  }

  function Closed(c: Connection): Connection {
    c.(status := DISCONNECTED, watching := false)
  }

  /** `std::bind(SendInLoop, this, data)` in the pending queue. */
  datatype Task = Task(name: string, data: seq<Byte>)

  /** The connections of one event loop, `pending_func_`, the rest of the batch that HandlePendingFunc is
      running, and what a producer has found the connection CONNECTED for but not queued yet. */
  datatype World = World(connections: map<string, Connection>, pending: seq<Task>, batch: seq<Task>,
                         held: map<string, seq<Byte>>)

  datatype Event =
    | Establish(name: string)
    | SetEvent(name: string, writing: bool)
    | Begin(name: string, data: seq<Byte>)
    | Push(name: string)
    | SendHere(name: string, data: seq<Byte>, answer: Answer)
    | Swap
    | RunTask(answer: Answer)
    | CanWrite(name: string, answer: Answer)
    | StartShutdown(name: string)
    | Close(name: string)

  /** The payloads queued for a connection, in order. */
  function Of(tasks: seq<Task>, name: string): seq<Byte> {
    if tasks == [] then []
    else (if tasks[0].name == name then tasks[0].data else []) + Of(tasks[1..], name)
  }

  lemma {:induction false} OfAppend(a: seq<Task>, b: seq<Task>, name: string)
    ensures Of(a + b, name) == Of(a, name) + Of(b, name)
  {
    if a == [] {
      assert a + b == b;
    } else {
      assert (a + b)[0] == a[0] && (a + b)[1..] == a[1..] + b;
      OfAppend(a[1..], b, name);
    }
  }

  function Held(w: World, name: string): seq<Byte> {
    if name in w.held then w.held[name] else []
  }

  function Queued(w: World, name: string): seq<Byte> {
    Of(w.batch, name) + Of(w.pending, name) + Held(w, name)
  }

  predicate Known(w: World, tasks: seq<Task>) {
    forall i :: 0 <= i < |tasks| ==> tasks[i].name in w.connections
  }

  /** A connection is established once and has one producer at a time on other threads. A batch is taken
      when the last one is done. */
  predicate Enabled(w: World, e: Event) {
    match e
    case Establish(name) => name in w.connections && w.connections[name].status == CONNECTING
    case Swap => w.batch == []
    case RunTask(_) => w.batch != [] && w.batch[0].name in w.connections
    case Begin(name, _) => name in w.connections && name !in w.held
    case Push(name) => name in w.connections && name in w.held
    case _ => e.name in w.connections
  }

  function With(w: World, name: string, c: Connection): World {
    w.(connections := w.connections[name := c])
  }

  function Step(w: World, e: Event): World
    requires Enabled(w, e)
  {
    match e
    case Establish(name) => With(w, name, w.connections[name].(status := CONNECTED))
    case SetEvent(name, writing) => With(w, name, w.connections[name].(writing := writing))
    case Begin(name, data) =>
      var c := w.connections[name];
      if c.status != CONNECTED then w
      else With(w, name, c.(submitted := c.submitted + data)).(held := w.held[name := data])
    case Push(name) => w.(pending := w.pending + [Task(name, w.held[name])], held := w.held - {name})
    case SendHere(name, data, answer) =>
      var c := w.connections[name];
      if c.status != CONNECTED then w
      else With(w, name, SendInLoop(c.(submitted := c.submitted + data), data, answer))
    case Swap => w.(batch := w.pending, pending := [])
    case RunTask(answer) =>
      var t := w.batch[0];
      With(w, t.name, SendInLoop(w.connections[t.name], t.data, answer)).(batch := w.batch[1..])
    case CanWrite(name, answer) => With(w, name, Writable(w.connections[name], answer))
    case StartShutdown(name) => With(w, name, Shutdown(w.connections[name]))
    case Close(name) => With(w, name, Closed(w.connections[name]))
  }

  /** Nothing is queued for a CONNECTED connection when the loop's own thread sends to it. */
  predicate InTurn(w: World, e: Event) {
    e.SendHere? && e.name in w.connections && w.connections[e.name].status == CONNECTED ==> Queued(w, e.name) == []
  }

  predicate EnabledRun(w: World, events: seq<Event>)
    decreases |events|
  {
    events == [] || (Enabled(w, events[0]) && EnabledRun(Step(w, events[0]), events[1..]))
  }

  function Run(w: World, events: seq<Event>): World
    requires EnabledRun(w, events)
    decreases |events|
  {
    if events == [] then w else Run(Step(w, events[0]), events[1..])
  }

  predicate InTurnRun(w: World, events: seq<Event>)
    requires EnabledRun(w, events)
    decreases |events|
  {
    events == [] || (InTurn(w, events[0]) && InTurnRun(Step(w, events[0]), events[1..]))
  }

  // ---------------------------------------------------------------- nothing is lost, doubled or reordered

  /** While CONNECTED, wire, send buffer and queue together are what was submitted, in order; afterwards
      wire and send buffer are the first part of it; before, there is nothing. */
  predicate Conserves(c: Connection, queued: seq<Byte>) {
    match c.status
    case CONNECTING => c.sendBuffer == c.wire == c.submitted == queued == []
    case CONNECTED => c.wire + c.sendBuffer + queued == c.submitted
    case _ => c.wire + c.sendBuffer <= c.submitted
  }

  predicate Conserved(w: World) {
    && Known(w, w.pending) && Known(w, w.batch)
    && forall name :: name in w.connections ==> Conserves(w.connections[name], Queued(w, name))
  }

  /** SendInLoop moves one payload from the front of the queue to wire and send buffer, or gives it up. */
  lemma SendInLoopConserves(c: Connection, data: seq<Byte>, a: Answer, queued: seq<Byte>)
    requires Conserves(c, data + queued)
    ensures Conserves(SendInLoop(c, data, a), queued)
    ensures c.wire <= SendInLoop(c, data, a).wire
  {
    var d := SendInLoop(c, data, a);
    if c.status == CONNECTED {
      assert c.wire + c.sendBuffer + (data + queued) == c.wire + c.sendBuffer + data + queued;
      if d.status == CONNECTED {
        assert d.wire + d.sendBuffer == c.wire + c.sendBuffer + data;
      }
    } else if c.status == CONNECTING {
      assert data == [] && queued == [];
    }
  }

  lemma WritableConserves(c: Connection, a: Answer, queued: seq<Byte>)
    requires Conserves(c, queued)
    ensures Conserves(Writable(c, a), queued)
    ensures c.wire <= Writable(c, a).wire
  {
    var d := Writable(c, a);
    assert d.wire + d.sendBuffer == c.wire + c.sendBuffer;
  }

  lemma ShutdownConserves(c: Connection, queued: seq<Byte>)
    requires Conserves(c, queued)
    ensures Conserves(Shutdown(c), queued) && Conserves(Closed(c), queued)
  {
  }

  lemma SubmitConserves(c: Connection, data: seq<Byte>, queued: seq<Byte>)
    requires Conserves(c, queued) && c.status == CONNECTED
    ensures Conserves(c.(submitted := c.submitted + data), queued + data)
  {
    assert c.wire + c.sendBuffer + (queued + data) == c.wire + c.sendBuffer + queued + data;
  }

  /** A step on one connection that leaves the queues of all others alone. */
  lemma OneChanged(w: World, w': World, name: string)
    requires Conserved(w) && name in w.connections && w'.connections.Keys == w.connections.Keys
    requires Known(w', w'.pending) && Known(w', w'.batch)
    requires forall n :: n in w.connections && n != name ==>
        w'.connections[n] == w.connections[n] && Queued(w', n) == Queued(w, n)
    requires Conserves(w'.connections[name], Queued(w', name))
    ensures Conserved(w')
  {
    forall n | n in w'.connections
      ensures Conserves(w'.connections[n], Queued(w', n))
    {
      if n != name {
        assert Conserves(w.connections[n], Queued(w, n));
      }
    }
  }

  lemma OneConserved(w: World, name: string, c: Connection)
    requires Conserved(w) && name in w.connections && Conserves(c, Queued(w, name))
    ensures Conserved(With(w, name, c))
  {
    OneChanged(w, With(w, name, c), name);
  }

  lemma BeginConserves(w: World, name: string, data: seq<Byte>)
    requires Conserved(w) && Enabled(w, Begin(name, data))
    ensures Conserved(Step(w, Begin(name, data)))
  {
    var w' := Step(w, Begin(name, data));
    if w.connections[name].status == CONNECTED {
      SubmitConserves(w.connections[name], data, Queued(w, name));
      assert Queued(w', name) == Queued(w, name) + data;
      OneChanged(w, w', name);
    }
  }

  lemma OfOne(t: Task, name: string)
    ensures Of([t], name) == if t.name == name then t.data else []
  {
    assert [t][1..] == [];
    assert t.data + [] == t.data;
  }

  lemma QueueBrackets(a: seq<Byte>, b: seq<Byte>, c: seq<Byte>)
    ensures a + (b + c) + [] == a + b + c && a + (b + []) + c == a + b + c
  {
  }

  /** Queueing moves a payload from its producer's hands to the end of the queue. */
  lemma PushKeepsQueued(w: World, name: string, n: string)
    requires Enabled(w, Push(name))
    ensures Queued(Step(w, Push(name)), n) == Queued(w, n)
  {
    var t := Task(name, w.held[name]);
    OfAppend(w.pending, [t], n);
    OfOne(t, n);
    QueueBrackets(Of(w.batch, n), Of(w.pending, n), Held(w, n));
  }

  lemma PushConserves(w: World, name: string)
    requires Conserved(w) && Enabled(w, Push(name))
    ensures Conserved(Step(w, Push(name)))
  {
    hide Queued;
    var w' := Step(w, Push(name));
    forall n | n in w.connections
      ensures Queued(w', n) == Queued(w, n)
    {
      PushKeepsQueued(w, name, n);
    }
    OneChanged(w, w', name);
  }

  lemma SwapConserves(w: World)
    requires Conserved(w) && w.batch == []
    ensures Conserved(Step(w, Swap))
  {
    var w' := Step(w, Swap);
    forall n | n in w.connections
      ensures Conserves(w'.connections[n], Queued(w', n))
    {
      assert Of(w.pending, n) + [] + Held(w, n) == [] + Of(w.pending, n) + Held(w, n);
    }
  }

  lemma RunTaskConserves(w: World, a: Answer)
    requires Conserved(w) && Enabled(w, RunTask(a))
    ensures Conserved(Step(w, RunTask(a)))
  {
    var t, w' := w.batch[0], Step(w, RunTask(a));
    assert Queued(w, t.name) == t.data + Queued(w', t.name);
    SendInLoopConserves(w.connections[t.name], t.data, a, Queued(w', t.name));
    forall n | n in w.connections && n != t.name
      ensures Queued(w', n) == Queued(w, n)
    {
      assert [] + Of(w.batch[1..], n) == Of(w.batch[1..], n);
    }
    OneChanged(w, w', t.name);
  }

  lemma SendHereConserves(w: World, name: string, data: seq<Byte>, a: Answer)
    requires Conserved(w) && Enabled(w, SendHere(name, data, a)) && InTurn(w, SendHere(name, data, a))
    ensures Conserved(Step(w, SendHere(name, data, a)))
  {
    var c := w.connections[name];
    if c.status == CONNECTED {
      SubmitConserves(c, data, []);
      var submitted := c.(submitted := c.submitted + data);
      assert [] + data == data + [];
      SendInLoopConserves(submitted, data, a, []);
      OneConserved(w, name, SendInLoop(submitted, data, a));
    }
  }

  lemma StepConserves(w: World, e: Event)
    requires Conserved(w) && Enabled(w, e) && InTurn(w, e)
    ensures Conserved(Step(w, e))
  {
    match e
    case Establish(name) => OneConserved(w, name, w.connections[name].(status := CONNECTED));
    case SetEvent(name, writing) => OneConserved(w, name, w.connections[name].(writing := writing));
    case Begin(name, data) => BeginConserves(w, name, data);
    case Push(name) => PushConserves(w, name);
    case SendHere(name, data, answer) => SendHereConserves(w, name, data, answer);
    case Swap => SwapConserves(w);
    case RunTask(answer) => RunTaskConserves(w, answer);
    case CanWrite(name, answer) =>
      WritableConserves(w.connections[name], answer, Queued(w, name));
      OneConserved(w, name, Writable(w.connections[name], answer));
    case StartShutdown(name) =>
      ShutdownConserves(w.connections[name], Queued(w, name));
      OneConserved(w, name, Shutdown(w.connections[name]));
    case Close(name) =>
      ShutdownConserves(w.connections[name], Queued(w, name));
      OneConserved(w, name, Closed(w.connections[name]));
  }

  /** In every run, whatever the kernel accepts and however the threads interleave, as long as the loop's
      own thread sends in turn. */
  lemma {:induction false} RunConserves(w: World, events: seq<Event>)
    requires Conserved(w) && EnabledRun(w, events) && InTurnRun(w, events)
    ensures Conserved(Run(w, events))
    decreases |events|
  {
    if events != [] {
      StepConserves(w, events[0]);
      RunConserves(Step(w, events[0]), events[1..]);
    }
  }

  /** What TcpConnection::Send queues from another thread. */
  function Queue(w: World, name: string, data: seq<Byte>): World
    requires name in w.connections
  {
    var c := w.connections[name];
    With(w, name, c.(submitted := c.submitted + data)).(pending := w.pending + [Task(name, data)])
  }

  /** It is the producer's two steps. */
  lemma QueueIsBeginThenPush(w: World, name: string, data: seq<Byte>)
    requires Conserved(w) && name in w.connections && w.connections[name].status == CONNECTED && name !in w.held
    ensures Conserved(Queue(w, name, data))
    ensures var begun := Step(w, Begin(name, data));
      Enabled(begun, Push(name)) && Queue(w, name, data) == Step(begun, Push(name))
  {
    var begun := Step(w, Begin(name, data));
    BeginConserves(w, name, data);
    PushConserves(begun, name);
    assert w.held[name := data] - {name} == w.held;
  }

  /** Accepted connections before Established, and nothing to do. */
  function Start(names: set<string>): World {
    World(map name | name in names :: NEW_CONNECTION, [], [], map[])
  }

  /** In every run from the start: what is on the wire is the first part of what was submitted, and all
      of it when the connection is still CONNECTED and nothing is buffered or queued. */
  lemma WireIsPrefix(names: set<string>, events: seq<Event>, name: string)
    requires EnabledRun(Start(names), events) && InTurnRun(Start(names), events)
    requires name in Run(Start(names), events).connections
    ensures var w := Run(Start(names), events);
      var c := w.connections[name];
      && c.wire <= c.submitted
      && (c.status == CONNECTED && c.sendBuffer == [] && Queued(w, name) == [] ==> c.wire == c.submitted)
  {
    RunConserves(Start(names), events);
    var w := Run(Start(names), events);
    assert Conserves(w.connections[name], Queued(w, name));
  }

  lemma WireGrows(c: Connection, data: seq<Byte>, a: Answer)
    ensures c.wire <= SendInLoop(c, data, a).wire && c.wire <= Writable(c, a).wire
  {
  }

  lemma StepKeepsWire(w: World, e: Event, name: string)
    requires Enabled(w, e) && name in w.connections
    ensures name in Step(w, e).connections && w.connections[name].wire <= Step(w, e).connections[name].wire
  {
    hide SendInLoop, Writable;
    match e
    case SendHere(n, data, answer) =>
      var c := w.connections[n];
      WireGrows(c.(submitted := c.submitted + data), data, answer);
    case RunTask(answer) => WireGrows(w.connections[w.batch[0].name], w.batch[0].data, answer);
    case CanWrite(n, answer) => WireGrows(w.connections[n], [], answer);
    case _ =>
  }

  /** What has been sent stays sent. */
  lemma {:induction false} RunKeepsWire(w: World, events: seq<Event>, name: string)
    requires EnabledRun(w, events) && name in w.connections
    ensures name in Run(w, events).connections
    ensures w.connections[name].wire <= Run(w, events).connections[name].wire
    decreases |events|
  {
    if events != [] {
      StepKeepsWire(w, events[0], name);
      RunKeepsWire(Step(w, events[0]), events[1..], name);
    }
  }

  /** The loop's own thread may send past the queue if and only if the queue is empty: otherwise there
      are payloads that overtake what was submitted before them. */
  lemma SendHereKeepsOrderIff(c: Connection, queued: seq<Byte>, a: Answer)
    requires c.status == CONNECTED && Conserves(c, queued) && a.errno != EPIPE && a.errno != ECONNRESET
    ensures (forall data :: Conserves(SendInLoop(c.(submitted := c.submitted + data), data, a), queued))
        <==> queued == []
  {
    if queued == [] {
      forall data
        ensures Conserves(SendInLoop(c.(submitted := c.submitted + data), data, a), queued)
      {
        SubmitConserves(c, data, []);
        assert [] + data == data + [];
        SendInLoopConserves(c.(submitted := c.submitted + data), data, a, []);
      }
    } else {
      var data: seq<Byte> := [(queued[0] as int + 1) % 256];
      var d := SendInLoop(c.(submitted := c.submitted + data), data, a);
      var sent := c.wire + c.sendBuffer;
      assert d.wire + d.sendBuffer == sent + data;
      assert (sent + data + queued)[|sent|] == data[0];
      assert (sent + queued + data)[|sent|] == queued[0];
      assert d.submitted == sent + queued + data;
      assert !Conserves(d, queued);
    }
  }

  /** The send buffer after the answers to one OnWritable each. */
  function Flush(c: Connection, answers: seq<Answer>): Connection
    decreases |answers|
  {
    if answers == [] then c else Flush(Writable(c, answers[0]), answers[1..])
  }

  /** As many writable events as there are buffered bytes put them all on the wire, if each takes at least one. */
  lemma {:induction false} FlushSendsAll(c: Connection, answers: seq<Answer>)
    requires c.writing && |answers| >= |c.sendBuffer|
    requires forall i :: 0 <= i < |answers| ==> answers[i].accepted >= 1
    ensures var d := Flush(c, answers); d.sendBuffer == [] && d.wire == c.wire + c.sendBuffer
    decreases |answers|
  {
    if answers == [] {
      assert c.wire + [] == c.wire;
    } else {
      var d := Writable(c, answers[0]);
      assert d.wire + d.sendBuffer == c.wire + c.sendBuffer;
      FlushSendsAll(d, answers[1..]);
    }
  }

  // ---------------------------------------------------------------- staying connected

  /** A send gives a connection up if and only if nothing was buffered or being written, the kernel took
      nothing, and the error is one of the two that the source calls fatal. A full kernel buffer is none.
      Then the write side is closed at once. */
  lemma SendGivesUpIff(c: Connection, data: seq<Byte>, a: Answer)
    requires c.status == CONNECTED
    ensures SendInLoop(c, data, a).status != CONNECTED <==>
      && !c.writing && c.sendBuffer == [] && (a.accepted == 0 || data == [])
      && (a.errno == EPIPE || a.errno == ECONNRESET)
    ensures SendInLoop(c, data, a).status == CONNECTED ==>
      SendInLoop(c, data, a).wire + SendInLoop(c, data, a).sendBuffer == c.wire + c.sendBuffer + data
    ensures SendInLoop(c, data, a).status != CONNECTED ==>
      SendInLoop(c, data, a) == c.(status := DISCONNECTING, shutWrite := true)
  {
  }

  /** The kernel is asked for nothing while a writable event is being handled or something is buffered: the
      payload waits behind what is buffered. */
  lemma SendWaitsItsTurn(c: Connection, data: seq<Byte>, a: Answer)
    requires c.status == CONNECTED && (c.writing || c.sendBuffer != [])
    ensures SendInLoop(c, data, a).wire == c.wire && SendInLoop(c, data, a).sendBuffer == c.sendBuffer + data
  {
    assert data[0..] == data && c.wire + [] == c.wire && c.sendBuffer + [] == c.sendBuffer;
  }

  /** Without a writable event nothing is taken from the buffer, and what the kernel takes is what it accepts.
      The registration ends exactly when that empties the buffer. */
  lemma WritableTakes(c: Connection, a: Answer)
    ensures var k := if c.writing then Min(a.accepted, |c.sendBuffer|) else 0;
      Writable(c, a).wire == c.wire + c.sendBuffer[..k] && Writable(c, a).sendBuffer == c.sendBuffer[k..]
    ensures Writable(c, a).status == c.status
    ensures Writable(c, a).watching <==> c.watching && (Writable(c, a).sendBuffer == [] ==> c.sendBuffer == [])
  {
    assert c.wire + [] == c.wire;
  }

  predicate Gone(s: Status) { s == DISCONNECTING || s == DISCONNECTED }

  /** Nobody shuts `name` down or closes it, and no send meets one of the two errors. */
  predicate Calm(events: seq<Event>, name: string) {
    forall e :: e in events ==>
      && (e.StartShutdown? || e.Close? ==> e.name != name)
      && (e.SendHere? || e.RunTask? ==> e.answer.errno != EPIPE && e.answer.errno != ECONNRESET)
  }

  lemma StepStaysConnected(w: World, e: Event, name: string)
    requires Enabled(w, e) && name in w.connections && w.connections[name].status == CONNECTED && Calm([e], name)
    ensures name in Step(w, e).connections && Step(w, e).connections[name].status == CONNECTED
  {
    hide SendInLoop, Writable;
    assert e in [e];
    match e
    case SendHere(n, data, answer) =>
      var c := w.connections[n];
      if c.status == CONNECTED {
        SendGivesUpIff(c.(submitted := c.submitted + data), data, answer);
      }
    case RunTask(answer) =>
      var c := w.connections[w.batch[0].name];
      if c.status == CONNECTED {
        SendGivesUpIff(c, w.batch[0].data, answer);
      }
    case CanWrite(n, answer) => WritableTakes(w.connections[n], answer);
    case _ =>
  }

  /** Whatever the kernel takes and whoever sends: a connection that nobody ends stays CONNECTED, and all that
      was submitted is on the wire, buffered or queued. */
  lemma {:induction false} StaysConnected(w: World, events: seq<Event>, name: string)
    requires EnabledRun(w, events) && name in w.connections && w.connections[name].status == CONNECTED
    requires Calm(events, name)
    ensures name in Run(w, events).connections && Run(w, events).connections[name].status == CONNECTED
    ensures Conserved(w) && InTurnRun(w, events) ==>
      var c := Run(w, events).connections[name];
      c.wire + c.sendBuffer + Queued(Run(w, events), name) == c.submitted
    decreases |events|
  {
    hide Step, Enabled, InTurn;
    if events == [] {
      assert Conserved(w) ==> Conserves(w.connections[name], Queued(w, name));
    } else {
      StepStaysConnected(w, events[0], name);
      if Conserved(w) && InTurnRun(w, events) {
        StepConserves(w, events[0]);
      }
      StaysConnected(Step(w, events[0]), events[1..], name);
    }
  }

  /** Close disconnects; a connection that is shutting down or disconnected is never CONNECTED again, and only
      Close makes the one the other. It takes nothing more, and what was buffered stays or is sent. */
  lemma {:induction false} GoneForGood(w: World, events: seq<Event>, name: string)
    requires EnabledRun(w, events) && name in w.connections && Gone(w.connections[name].status)
    ensures name in Run(w, events).connections && Gone(Run(w, events).connections[name].status)
    ensures Run(w, events).connections[name].status == DISCONNECTED
      <==> w.connections[name].status == DISCONNECTED || Close(name) in events
    ensures var c, d := w.connections[name], Run(w, events).connections[name];
      d.submitted == c.submitted && d.wire + d.sendBuffer == c.wire + c.sendBuffer
    decreases |events|
  {
    if events != [] {
      var c, d := w.connections[name], Step(w, events[0]).connections[name];
      assert Gone(d.status) && d.submitted == c.submitted && d.wire + d.sendBuffer == c.wire + c.sendBuffer;
      assert d.status == DISCONNECTED <==> c.status == DISCONNECTED || events[0] == Close(name);
      GoneForGood(Step(w, events[0]), events[1..], name);
    }
  }

  /** Close ends any connection and its registration, Shutdown only a CONNECTED one; both leave the others alone. */
  lemma CloseDisconnects(w: World, name: string)
    requires name in w.connections
    ensures Enabled(w, Close(name)) && Enabled(w, StartShutdown(name))
    ensures var c, d := w.connections[name], Step(w, Close(name)).connections[name];
      d == c.(status := DISCONNECTED, watching := false)
    ensures var c, d := w.connections[name], Step(w, StartShutdown(name)).connections[name];
      if c.status == CONNECTED then d.status == DISCONNECTING && d.(status := CONNECTED, shutWrite := c.shutWrite) == c
      else d == c
    ensures forall e, n :: e in {Close(name), StartShutdown(name)} && n in w.connections && n != name ==>
      n in Step(w, e).connections && Step(w, e).connections[n] == w.connections[n]
  {
  }

  // ---------------------------------------------------------------- what is buffered and not registered for

  lemma FourSteps(w: World, a: Event, b: Event, c: Event, d: Event)
    requires Enabled(w, a) && Enabled(Step(w, a), b) && Enabled(Step(Step(w, a), b), c)
    requires Enabled(Step(Step(Step(w, a), b), c), d)
    ensures EnabledRun(w, [a, b, c, d])
    ensures Run(w, [a, b, c, d]) == Step(Step(Step(Step(w, a), b), c), d)
  {
    hide Enabled, Step;
    var w1 := Step(w, a);
    var w2 := Step(w1, b);
    var w3 := Step(w2, c);
    assert [a, b, c, d][1..] == [b, c, d] && [b, c, d][1..] == [c, d] && [c, d][1..] == [d] && [d][1..] == [];
    assert EnabledRun(Step(w3, d), []);
    assert EnabledRun(w3, [d]) && Run(w3, [d]) == Step(w3, d);
    assert EnabledRun(w2, [c, d]) && Run(w2, [c, d]) == Step(w3, d);
    assert EnabledRun(w1, [b, c, d]) && Run(w1, [b, c, d]) == Step(w3, d);
  }

  /** A send that leaves something buffered registers for writable events, unless the last event was one: then
      it relies on a registration that emptying the buffer may have ended. */
  lemma BufferedIsWatchedIff(c: Connection, data: seq<Byte>, a: Answer)
    requires c.status == CONNECTED && SendInLoop(c, data, a).status == CONNECTED
    requires |SendInLoop(c, data, a).sendBuffer| > |c.sendBuffer|
    ensures SendInLoop(c, data, a).watching <==> c.watching || !c.writing
  {
  }

  /** A byte waits in the kernel, a writable event sends it, and another byte is sent before the next event. */
  const STALLING := [Establish("viewer"), SendHere("viewer", [1], Answer(0, EWOULDBLOCK)), SetEvent("viewer", true),
                     CanWrite("viewer", Answer(1, EWOULDBLOCK)), SendHere("viewer", [2], Answer(1, EWOULDBLOCK))]

  /** Then that byte is buffered on a CONNECTED connection that is not registered for writable events. */
  lemma BufferedUnwatched()
    ensures EnabledRun(Start({"viewer"}), STALLING)
    ensures var w := Run(Start({"viewer"}), STALLING);
      && "viewer" in w.connections
      && w.connections["viewer"] == Connection(CONNECTED, true, false, false, [2], [1], [1, 2])
  {
    var name := "viewer";
    var w1 := Step(Start({name}), Establish(name));
    var w2 := Step(w1, STALLING[1]);
    assert w2.connections[name] == Connection(CONNECTED, false, true, false, [1], [], [1]);
    var w3 := Step(w2, STALLING[2]);
    var w4 := Step(w3, STALLING[3]);
    assert w4.connections[name] == Connection(CONNECTED, true, false, false, [], [1], [1]);
    FourSteps(w1, STALLING[1], STALLING[2], STALLING[3], STALLING[4]);
    assert STALLING[1..] == [STALLING[1], STALLING[2], STALLING[3], STALLING[4]];
    assert STALLING[0] == Establish(name);
  }

  /** A connection that shut down while it was writing keeps its write side open for good: the Shutdown
      behind the last buffered byte finds it DISCONNECTING and does nothing. */
  predicate OpenForGood(c: Connection) {
    (c.status == DISCONNECTING || c.status == DISCONNECTED) && !c.shutWrite
  }

  lemma {:induction false} NeverHalfCloses(w: World, events: seq<Event>, name: string)
    requires EnabledRun(w, events) && name in w.connections && OpenForGood(w.connections[name])
    ensures name in Run(w, events).connections && OpenForGood(Run(w, events).connections[name])
    decreases |events|
  {
    if events != [] {
      assert OpenForGood(Step(w, events[0]).connections[name]);
      NeverHalfCloses(Step(w, events[0]), events[1..], name);
    }
  }

  /** Kept by every step once a connection is no longer CONNECTED or CONNECTING: shutdown(2) was called
      when it shut down, or never will be. */
  lemma {:induction false} ShutStays(w: World, events: seq<Event>, name: string)
    requires EnabledRun(w, events) && name in w.connections
    requires w.connections[name].status == DISCONNECTING || w.connections[name].status == DISCONNECTED
    ensures name in Run(w, events).connections
    ensures Run(w, events).connections[name].shutWrite == w.connections[name].shutWrite
    decreases |events|
  {
    if events != [] {
      var c, d := w.connections[name], Step(w, events[0]).connections[name];
      assert d.shutWrite == c.shutWrite && (d.status == DISCONNECTING || d.status == DISCONNECTED);
      ShutStays(Step(w, events[0]), events[1..], name);
    }
  }

  /** Whatever happens after Shutdown, the write side is ever closed if and only if the last event of the
      connection was not a writable one when Shutdown was called: sending the buffered data decides nothing. */
  lemma ClosesIffNotWriting(w: World, name: string, events: seq<Event>)
    requires name in w.connections && w.connections[name].status == CONNECTED && !w.connections[name].shutWrite
    requires EnabledRun(Step(w, StartShutdown(name)), events)
    ensures var r := Run(Step(w, StartShutdown(name)), events);
      name in r.connections && (r.connections[name].shutWrite <==> !w.connections[name].writing)
  {
    ShutStays(Step(w, StartShutdown(name)), events, name);
  }

  /** Two bytes are submitted and the kernel takes one of them; then the connection shuts down. */
  function ShutdownRun(writing: bool): seq<Event> {
    [Establish("viewer"), SendHere("viewer", [1, 2], Answer(1, EWOULDBLOCK)), SetEvent("viewer", writing),
     StartShutdown("viewer")]
  }

  lemma ShutdownRunIs(writing: bool)
    ensures EnabledRun(Start({"viewer"}), ShutdownRun(writing))
    ensures var w := Run(Start({"viewer"}), ShutdownRun(writing));
      && w.connections.Keys == {"viewer"} && w.pending == w.batch == [] && w.held == map[]
      && w.connections["viewer"] == Connection(DISCONNECTING, writing, true, !writing, [2], [1], [1, 2])
  {
    var name, events := "viewer", ShutdownRun(writing);
    var w1 := Step(Start({name}), Establish(name));
    var w2 := Step(w1, events[1]);
    assert w2.connections[name] == Connection(CONNECTED, false, true, false, [2], [1], [1, 2]);
    FourSteps(Start({name}), events[0], events[1], events[2], events[3]);
  }

  /** Where the comment in the source fails: a run from the start at whose end everything is sent, and the
      write side is open and stays so. */
  lemma SentButNotClosed(later: seq<Event>)
    requires EnabledRun(Start({"viewer"}), ShutdownRun(true))
    requires var w := Run(Start({"viewer"}), ShutdownRun(true));
      "viewer" in w.connections && EnabledRun(Step(w, CanWrite("viewer", Answer(1, EWOULDBLOCK))), later)
    ensures var w := Step(Run(Start({"viewer"}), ShutdownRun(true)), CanWrite("viewer", Answer(1, EWOULDBLOCK)));
      && w.connections["viewer"].sendBuffer == [] && w.connections["viewer"].wire == w.connections["viewer"].submitted
      && w.connections["viewer"].status == DISCONNECTING
      && "viewer" in Run(w, later).connections && !Run(w, later).connections["viewer"].shutWrite
  {
    ShutdownRunIs(true);
    var w := Step(Run(Start({"viewer"}), ShutdownRun(true)), CanWrite("viewer", Answer(1, EWOULDBLOCK)));
    ShutStays(w, later, "viewer");
  }

  /** And the other way round: without a writable event the write side is closed at once, before the bytes
      that are still buffered. */
  lemma ClosedButNotSent()
    ensures EnabledRun(Start({"viewer"}), ShutdownRun(false))
    ensures var w := Run(Start({"viewer"}), ShutdownRun(false));
      && "viewer" in w.connections && w.connections["viewer"].shutWrite
      && w.connections["viewer"].sendBuffer == [2] && w.connections["viewer"].wire == [1]
  {
    ShutdownRunIs(false);
  }

  /** Out of turn: a byte is queued from another thread, and the loop's own thread sends the next one. */
  const OVERTAKING := [Establish("viewer"), Begin("viewer", [1]), Push("viewer"),
                       SendHere("viewer", [2], Answer(1, EWOULDBLOCK))]

  /** Then the second is on the wire before the first. */
  lemma OutOfTurnOvertakes()
    ensures EnabledRun(Start({"viewer"}), OVERTAKING)
    ensures var w := Run(Start({"viewer"}), OVERTAKING);
      && "viewer" in w.connections
      && w.connections["viewer"].submitted == [1, 2] && w.connections["viewer"].wire == [2]
  {
    var name := "viewer";
    var w1 := Step(Start({name}), Establish(name));
    var w2 := Step(w1, Begin(name, [1]));
    var w3 := Step(w2, Push(name));
    assert w3.connections[name] == Connection(CONNECTED, false, false, false, [], [], [1]);
    FourSteps(Start({name}), OVERTAKING[0], OVERTAKING[1], OVERTAKING[2], OVERTAKING[3]);
  }
}
