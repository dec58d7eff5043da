/** network/TcpConnection: the sending side of one connection, proved to be a connection of SendPipeline. */
module TcpConnections {
  import opened Bytes
  import opened Buffers
  import Pipeline = SendPipeline

  class TcpConnection {
    const connection_name_: string
    var connection_status_: Pipeline.Status
    /** The EPOLLOUT bits of `channel_`: of the last returned event, and of the registered ones. */
    var event_out_: bool
    var ep_event_out_: bool
    const send_buffer_: Buffer
    /** Whether the write side of `sockfd_` was shut down. */
    var shut_write_: bool
    /** What the kernel took, and what was handed to Send while CONNECTED. */
    ghost var wire: seq<Byte>
    ghost var submitted: seq<Byte>

    ghost predicate Valid()
      reads send_buffer_
    {
      send_buffer_.Valid()
    }

    ghost function Value(): Pipeline.Connection
      requires Valid()
      reads this, send_buffer_
    {
      Pipeline.Connection(connection_status_, event_out_, ep_event_out_, shut_write_,
                          send_buffer_.Contents(), wire, submitted)
    }

    constructor (name: string)
      ensures Valid() && connection_name_ == name && fresh(send_buffer_)
      ensures Value() == Pipeline.NEW_CONNECTION
    {
      connection_name_, connection_status_ := name, Pipeline.CONNECTING;
      event_out_, ep_event_out_, shut_write_ := false, false, false;
      send_buffer_ := new Buffer();
      wire, submitted := [], [];
    }

    method Established()
      requires Valid()
      modifies `connection_status_
      ensures Valid() && Value() == old(Value()).(status := Pipeline.CONNECTED)
    {
      connection_status_ := Pipeline.CONNECTED;
    }

    /** The multiplexer stores the returned event in the channel. */
    method SetEvent(writing: bool)
      requires Valid()
      modifies `event_out_
      ensures Valid() && Value() == old(Value()).(writing := writing)
    {
      event_out_ := writing;
    }

    /** Socket::Send. */
    method SendToKernel(data: seq<Byte>, answer: Pipeline.Answer) returns (send_size: nat)
      requires Valid()
      modifies `wire
      ensures Valid() && send_size == Min(answer.accepted, |data|)
      ensures Value() == old(Value()).(wire := old(wire) + data[..send_size])
    {
      send_size := Min(answer.accepted, |data|);
      wire := wire + data[..send_size];
    }

    method Shutdown()
      requires Valid()
      modifies `connection_status_, `shut_write_
      ensures Valid() && Value() == Pipeline.Shutdown(old(Value()))
    {
      if connection_status_ == Pipeline.CONNECTED {
        connection_status_ := Pipeline.DISCONNECTING;
        if !event_out_ {
          shut_write_ := true;
        }
      }
    }

    /** The direct send, with its fatal errors. */
    method TrySend(data: seq<Byte>, answer: Pipeline.Answer) returns (send_size: nat, send_fatal_error: bool)
      requires Valid()
      modifies `wire, `connection_status_, `shut_write_
      ensures Valid() && send_size == Min(answer.accepted, |data|)
      ensures send_fatal_error <==>
        send_size == 0 && (answer.errno == Pipeline.EPIPE || answer.errno == Pipeline.ECONNRESET)
      ensures Value() == if send_fatal_error then Pipeline.Shutdown(old(Value()))
                         else old(Value()).(wire := old(wire) + data[..send_size])
    {
      send_fatal_error := false;
      send_size := SendToKernel(data, answer);
      if send_size <= 0 {
        assert wire == old(wire);
        if answer.errno != Pipeline.EWOULDBLOCK {
          if answer.errno == Pipeline.EPIPE || answer.errno == Pipeline.ECONNRESET {
            send_fatal_error := true;
            Shutdown();
          }
        }
      }
    }

    method AppendRemain(data: seq<Byte>)
      requires Valid()
      modifies `ep_event_out_, send_buffer_
      ensures Valid()
      ensures Value() == old(Value()).(sendBuffer := old(Value()).sendBuffer + data, watching := ep_event_out_)
      ensures ep_event_out_ == (old(ep_event_out_) || !event_out_)
    {
      send_buffer_.AppendData(data);
      if !event_out_ {
        ep_event_out_ := true;
      }
    }

    method SendInLoop(data: seq<Byte>, answer: Pipeline.Answer)
      requires Valid()
      modifies this, send_buffer_
      ensures Valid() && Value() == Pipeline.SendInLoop(old(Value()), data, answer)
    {
      if connection_status_ == Pipeline.DISCONNECTED || connection_status_ == Pipeline.DISCONNECTING {
        return;
      }
      var send_fatal_error := false;
      var send_size := 0;
      assert wire + data[..0] == wire;
      if !event_out_ && send_buffer_.ReadableLength() == 0 {
        send_size, send_fatal_error := TrySend(data, answer);
      }
      var remain := |data| - send_size;
      if !send_fatal_error && remain > 0 {
        AppendRemain(data[send_size..]);
      }
    }

    method OnWritable(answer: Pipeline.Answer)
      requires Valid()
      modifies this, send_buffer_
      ensures Valid() && Value() == Pipeline.Writable(old(Value()), answer)
    {
      if event_out_ {
        var send_size := SendToKernel(send_buffer_.Contents(), answer);
        if send_size > 0 {
          send_buffer_.AddReadIndex(send_size);
          if send_buffer_.ReadableLength() == 0 {
            ep_event_out_ := false;
            if connection_status_ == Pipeline.DISCONNECTING {
              Shutdown();
            }
          }
        }
      }
    }

    method OnClose()
      requires Valid()
      modifies `connection_status_, `ep_event_out_
      ensures Valid() && Value() == Pipeline.Closed(old(Value()))
    {
      connection_status_ := Pipeline.DISCONNECTED;
      ep_event_out_ := false;
    }
  }
}
