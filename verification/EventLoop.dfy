/** network/EventLoop: the queue of pending sends, and the loop that takes it in one batch and runs it. */
module EventLoops {
  import opened Bytes
  import opened TcpConnections
  import opened SendPipeline

  /** Sends of other threads, one after the other: each queues its payload while its connection is CONNECTED. */
  function QueueAll(w: World, sends: seq<Task>): (r: World)
    ensures r.connections.Keys == w.connections.Keys && r.batch == w.batch && r.held == w.held
    decreases |sends|
  {
    if sends == [] then w
    else
      var name := sends[0].name;
      QueueAll(
        if name in w.connections && w.connections[name].status == CONNECTED then Queue(w, name, sends[0].data) else w,
        sends[1..])
  }

  lemma {:induction false} QueueAllConserves(w: World, sends: seq<Task>)
    requires Conserved(w) && w.held == map[]
    ensures Conserved(QueueAll(w, sends))
    decreases |sends|
  {
    if sends != [] {
      var name := sends[0].name;
      if name in w.connections && w.connections[name].status == CONNECTED {
        QueueIsBeginThenPush(w, name, sends[0].data);
        QueueAllConserves(Queue(w, name, sends[0].data), sends[1..]);
      } else {
        QueueAllConserves(w, sends[1..]);
      }
    }
  }

  /** The tasks of a batch, run one after the other; in front of each, other threads may have sent. */
  function RunBatch(w: World, answers: seq<Answer>, pushes: seq<seq<Task>>): World
    requires |answers| == |pushes| == |w.batch| && Known(w, w.batch)
    decreases |answers|
  {
    if answers == [] then w
    else RunBatch(Step(QueueAll(w, pushes[0]), RunTask(answers[0])), answers[1..], pushes[1..])
  }

  /** A whole batch: it leaves nothing of itself, and nothing lost, whoever sends meanwhile. */
  lemma {:induction false} RunBatchConserves(w: World, answers: seq<Answer>, pushes: seq<seq<Task>>)
    requires Conserved(w) && |answers| == |pushes| == |w.batch| && w.held == map[]
    ensures var r := RunBatch(w, answers, pushes);
      Conserved(r) && r.batch == [] && r.held == map[] && r.connections.Keys == w.connections.Keys
    decreases |answers|
  {
    if answers != [] {
      var q := QueueAll(w, pushes[0]);
      QueueAllConserves(w, pushes[0]);
      StepConserves(q, RunTask(answers[0]));
      RunBatchConserves(Step(q, RunTask(answers[0])), answers[1..], pushes[1..]);
    }
  }

  lemma {:induction false} QueueAllKnows(w: World, sends: seq<Task>)
    requires Known(w, w.pending) && Known(w, w.batch) && w.held == map[]
    ensures var r := QueueAll(w, sends);
      && Known(r, r.pending) && Known(r, r.batch)
      && r.batch == w.batch && r.held == map[] && r.connections.Keys == w.connections.Keys
    decreases |sends|
  {
    if sends != [] {
      var name := sends[0].name;
      if name in w.connections && w.connections[name].status == CONNECTED {
        QueueAllKnows(Queue(w, name, sends[0].data), sends[1..]);
      } else {
        QueueAllKnows(w, sends[1..]);
      }
    }
  }

  /** The first task of a batch. */
  lemma TaskStep(w: World, answer: Answer)
    requires Known(w, w.pending) && Known(w, w.batch) && w.batch != []
    ensures var t := w.batch[0];
      && Enabled(w, RunTask(answer))
      && var next := Step(w, RunTask(answer));
         && next.connections == w.connections[t.name := SendInLoop(w.connections[t.name], t.data, answer)]
         && next.batch == w.batch[1..] && next.pending == w.pending && next.held == w.held
         && Known(next, next.pending) && Known(next, next.batch)
  {
  }

  /** The rest of it. */
  lemma BatchAdvances(w: World, answers: seq<Answer>, pushes: seq<seq<Task>>)
    requires Known(w, w.pending) && Known(w, w.batch) && |answers| == |pushes| == |w.batch| > 0 && w.held == map[]
    ensures var q := QueueAll(w, pushes[0]);
      && Enabled(q, RunTask(answers[0]))
      && var next := Step(q, RunTask(answers[0]));
         && next.batch == w.batch[1..] && Known(next, next.batch)
         && RunBatch(next, answers[1..], pushes[1..]) == RunBatch(w, answers, pushes)
  {
    QueueAllKnows(w, pushes[0]);
    TaskStep(QueueAll(w, pushes[0]), answers[0]);
  }

  lemma NothingLeft(w: World, answers: seq<Answer>, pushes: seq<seq<Task>>)
    requires answers == [] && pushes == [] && w.batch == []
    ensures RunBatch(w, answers, pushes) == w
  {
  }

  class EventLoop {
    var pending_func_: seq<Task>
    /** The connections whose SendInLoop the pending functions are bound to. */
    const connections: map<string, TcpConnection>

    /** The abstract state, tied to the objects by Valid(). */
    ghost var world: World

    ghost predicate Apart()
    {
      forall m, n :: m in connections && n in connections && m != n ==>
        connections[m] != connections[n] && connections[m].send_buffer_ != connections[n].send_buffer_
    }

    ghost predicate Shows(values: map<string, Connection>)
      reads connections.Values, set n | n in connections :: connections[n].send_buffer_
    {
      && Apart() && values.Keys == connections.Keys
      && forall n :: n in connections ==>
          connections[n].Valid() && connections[n].connection_name_ == n && connections[n].Value() == values[n]
    }

    /** The state in the middle of a batch. */
    ghost predicate Running()
      reads this, connections.Values, set n | n in connections :: connections[n].send_buffer_
    {
      && Shows(world.connections) && Known(world, world.pending) && Known(world, world.batch)
      && world.pending == pending_func_ && world.held == map[]
    }

    ghost predicate Valid()
      reads this, connections.Values, set n | n in connections :: connections[n].send_buffer_
    {
      Running() && world.batch == []
    }

    /** The connection is one of this loop's. */
    ghost predicate Bound(connection: TcpConnection) {
      connection.connection_name_ in connections && connections[connection.connection_name_] == connection
    }

    constructor (connections: map<string, TcpConnection>)
      requires forall n :: n in connections ==>
        connections[n].Valid() && connections[n].connection_name_ == n && connections[n].Value() == NEW_CONNECTION
      requires forall m, n :: m in connections && n in connections && m != n ==>
        connections[m] != connections[n] && connections[m].send_buffer_ != connections[n].send_buffer_
      ensures Valid() && this.connections == connections && world == Start(connections.Keys)
    {
      this.connections := connections;
      pending_func_ := [];
      world := Start(connections.Keys);
    }

    method RunInLoop(function_: Task)
      modifies `pending_func_
      ensures pending_func_ == old(pending_func_) + [function_]
    {
      pending_func_ := pending_func_ + [function_];
    }

    lemma ShowsBound(values: map<string, Connection>, name: string)
      requires Shows(values)
      ensures name in values <==> name in connections
      ensures name in connections ==> Bound(connections[name]) && connections[name].connection_name_ == name
      ensures name in connections ==> connections[name].connection_status_ == values[name].status
    {
    }

    ghost method Submit(connection: TcpConnection, data: seq<Byte>, values: map<string, Connection>)
      requires Bound(connection) && Shows(values)
      modifies connection`submitted
      ensures var name := connection.connection_name_;
        Shows(values[name := values[name].(submitted := values[name].submitted + data)])
    {
      connection.submitted := connection.submitted + data;
    }

    /** TcpConnection::Send on a thread other than the loop's. */
    method Send(connection: TcpConnection, data: seq<Byte>)
      requires Running() && Bound(connection)
      modifies this, connection`submitted
      ensures Running() && world.batch == old(world).batch
      ensures world ==
        if connection.connection_status_ == CONNECTED then Queue(old(world), connection.connection_name_, data)
        else old(world)
    {
      hide Shows, TcpConnection.Value, TcpConnection.Valid;
      var name := connection.connection_name_;
      ShowsBound(world.connections, name);
      if connection.connection_status_ == CONNECTED {
        Submit(connection, data, world.connections);
        RunInLoop(Task(name, data));
        world := Queue(world, name, data);
      }
    }

    /** Sends of other threads to connections of this loop. */
    method SendAll(sends: seq<Task>)
      requires Running()
      modifies this, connections.Values
      ensures Running() && world == QueueAll(old(world), sends)
    {
      hide Shows, TcpConnection.Value, TcpConnection.Valid, Queue;
      assert sends[0..] == sends;
      for i := 0 to |sends|
        invariant Running() && QueueAll(world, sends[i..]) == QueueAll(old(world), sends)
      {
        assert sends[i..][1..] == sends[i + 1..];
        ShowsBound(world.connections, sends[i].name);
        if sends[i].name in connections {
          Send(connections[sends[i].name], sends[i].data);
        }
      }
    }

    /** One pending function, on its connection. */
    method Call(connection: TcpConnection, data: seq<Byte>, answer: Answer, ghost values: map<string, Connection>)
      requires Bound(connection) && Shows(values)
      modifies connection, connection.send_buffer_
      ensures var name := connection.connection_name_;
        Shows(values[name := SendInLoop(values[name], data, answer)])
    {
      hide SendInLoop, TcpConnection.Value, TcpConnection.Valid;
      connection.SendInLoop(data, answer);
    }

    method Write(connection: TcpConnection, answer: Answer, ghost values: map<string, Connection>)
      requires Bound(connection) && Shows(values)
      modifies connection, connection.send_buffer_
      ensures var name := connection.connection_name_;
        Shows(values[name := Writable(values[name], answer)])
    {
      hide Writable, TcpConnection.Value, TcpConnection.Valid;
      connection.OnWritable(answer);
    }

    /** TcpConnection::Send on the loop's own thread: at once, whatever is queued. */
    method SendOnLoop(connection: TcpConnection, data: seq<Byte>, answer: Answer)
      requires Running() && Bound(connection)
      modifies `world, connection, connection.send_buffer_
      ensures Running() && Enabled(old(world), SendHere(connection.connection_name_, data, answer))
      ensures world == Step(old(world), SendHere(connection.connection_name_, data, answer))
    {
      hide SendInLoop, Shows, TcpConnection.Value, TcpConnection.Valid;
      var name := connection.connection_name_;
      ShowsBound(world.connections, name);
      if connection.connection_status_ == CONNECTED {
        Submit(connection, data, world.connections);
        ghost var c := world.connections[name].(submitted := world.connections[name].submitted + data);
        Call(connection, data, answer, world.connections[name := c]);
        assert world.connections[name := c][name := SendInLoop(c, data, answer)]
            == world.connections[name := SendInLoop(c, data, answer)];
      }
      world := Step(world, SendHere(name, data, answer));
    }

    /** The next function of the batch. */
    method RunFirst(t: Task, answer: Answer)
      requires Running() && world.batch != [] && world.batch[0] == t
      modifies `world, connections.Values, set n | n in connections :: connections[n].send_buffer_
      ensures Running() && Enabled(old(world), RunTask(answer)) && world == Step(old(world), RunTask(answer))
    {
      hide SendInLoop, Step, Shows, TcpConnection.Value, TcpConnection.Valid;
      TaskStep(world, answer);
      ShowsBound(world.connections, t.name);
      Call(connections[t.name], t.data, answer, world.connections);
      world := Step(world, RunTask(answer));
    }

    /** `pending_func.swap(pending_func_)`. */
    method TakePending() returns (pending_func: seq<Task>)
      requires Valid()
      modifies this
      ensures Running() && pending_func == old(pending_func_) == world.batch && pending_func_ == []
      ensures world == Step(old(world), Swap)
    {
      hide Shows;
      pending_func := [];
      pending_func, pending_func_ := pending_func_, pending_func;
      world := Step(world, Swap);
    }

    /** Takes the queue and runs it; `answers` is what the kernel says to each of the sends, `pushes` is
        what other threads send in front of each function. That waits for the next batch. */
    method HandlePendingFunc(answers: seq<Answer>, pushes: seq<seq<Task>>)
      requires Valid() && |answers| == |pushes| == |pending_func_|
      modifies this, connections.Values, set n | n in connections :: connections[n].send_buffer_
      ensures Valid()
      ensures world == RunBatch(Step(old(world), Swap), answers, pushes)
    {
      hide Shows, RunBatch, QueueAll, Step;
      var pending_func := TakePending();
      ghost var start := world;
      assert answers[0..] == answers && pending_func[0..] == pending_func && pushes[0..] == pushes;
      for i := 0 to |pending_func|
        invariant Running() && world.batch == pending_func[i..]
        invariant RunBatch(world, answers[i..], pushes[i..]) == RunBatch(start, answers, pushes)
      {
        assert answers[i..][1..] == answers[i + 1..] && pending_func[i..][1..] == pending_func[i + 1..];
        assert pushes[i..][1..] == pushes[i + 1..];
        BatchAdvances(world, answers[i..], pushes[i..]);
        SendAll(pushes[i]);
        RunFirst(pending_func[i], answers[i]);
      }
      NothingLeft(world, answers[|pending_func|..], pushes[|pending_func|..]);
    }

    method MakeConnected(connection: TcpConnection, ghost values: map<string, Connection>)
      requires Bound(connection) && Shows(values)
      modifies connection`connection_status_
      ensures var name := connection.connection_name_; Shows(values[name := values[name].(status := CONNECTED)])
    {
      hide TcpConnection.Value, TcpConnection.Valid;
      connection.Established();
    }

    /** A new connection of this loop is established. */
    method HandleEstablished(connection: TcpConnection)
      requires Running() && Bound(connection) && connection.connection_status_ == CONNECTING
      modifies `world, connection`connection_status_
      ensures Running() && Enabled(old(world), Establish(connection.connection_name_))
      ensures world == Step(old(world), Establish(connection.connection_name_))
    {
      hide Shows, TcpConnection.Value, TcpConnection.Valid;
      ShowsBound(world.connections, connection.connection_name_);
      MakeConnected(connection, world.connections);
      world := Step(world, Establish(connection.connection_name_));
    }

    method StoreEvent(connection: TcpConnection, writing: bool, ghost values: map<string, Connection>)
      requires Bound(connection) && Shows(values)
      modifies connection`event_out_
      ensures var name := connection.connection_name_; Shows(values[name := values[name].(writing := writing)])
    {
      hide TcpConnection.Value, TcpConnection.Valid;
      connection.SetEvent(writing);
    }

    /** The multiplexer returns an event for the connection. */
    method HandleEvent(connection: TcpConnection, writing: bool)
      requires Running() && Bound(connection)
      modifies `world, connection`event_out_
      ensures Running() && Enabled(old(world), SetEvent(connection.connection_name_, writing))
      ensures world == Step(old(world), SetEvent(connection.connection_name_, writing))
    {
      hide Shows, TcpConnection.Value, TcpConnection.Valid;
      ShowsBound(world.connections, connection.connection_name_);
      StoreEvent(connection, writing, world.connections);
      world := Step(world, SetEvent(connection.connection_name_, writing));
    }

    method ShutDown(connection: TcpConnection, ghost values: map<string, Connection>)
      requires Bound(connection) && Shows(values)
      modifies connection`connection_status_, connection`shut_write_
      ensures var name := connection.connection_name_; Shows(values[name := Shutdown(values[name])])
    {
      hide TcpConnection.Value, TcpConnection.Valid;
      connection.Shutdown();
    }

    /** Shutdown is called on the connection. */
    method HandleShutdown(connection: TcpConnection)
      requires Running() && Bound(connection)
      modifies `world, connection`connection_status_, connection`shut_write_
      ensures Running() && Enabled(old(world), StartShutdown(connection.connection_name_))
      ensures world == Step(old(world), StartShutdown(connection.connection_name_))
    {
      hide Shows, TcpConnection.Value, TcpConnection.Valid;
      ShowsBound(world.connections, connection.connection_name_);
      ShutDown(connection, world.connections);
      world := Step(world, StartShutdown(connection.connection_name_));
    }

    method CloseDown(connection: TcpConnection, ghost values: map<string, Connection>)
      requires Bound(connection) && Shows(values)
      modifies connection`connection_status_, connection`ep_event_out_
      ensures var name := connection.connection_name_; Shows(values[name := Closed(values[name])])
    {
      hide TcpConnection.Value, TcpConnection.Valid;
      connection.OnClose();
    }

    /** The connection is closed. */
    method HandleClose(connection: TcpConnection)
      requires Running() && Bound(connection)
      modifies `world, connection`connection_status_, connection`ep_event_out_
      ensures Running() && Enabled(old(world), Close(connection.connection_name_))
      ensures world == Step(old(world), Close(connection.connection_name_))
    {
      hide Shows, TcpConnection.Value, TcpConnection.Valid;
      ShowsBound(world.connections, connection.connection_name_);
      CloseDown(connection, world.connections);
      world := Step(world, Close(connection.connection_name_));
    }

    /** The multiplexer reports a writable socket. */
    method HandleWritable(connection: TcpConnection, answer: Answer)
      requires Running() && Bound(connection)
      modifies `world, connection, connection.send_buffer_
      ensures Running() && world == Step(old(world), CanWrite(connection.connection_name_, answer))
    {
      hide Writable, Shows, TcpConnection.Value, TcpConnection.Valid;
      ShowsBound(world.connections, connection.connection_name_);
      Write(connection, answer, world.connections);
      world := Step(world, CanWrite(connection.connection_name_, answer));
    }
  }
}
