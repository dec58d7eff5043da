/** network/protocol/RtmpServerConnection: one publisher's connection, from the handshake to the body data. */
module RtmpServerConnections {
  import opened Bytes
  import opened Buffers
  import opened RtmpManagers
  import opened Viewers
  import FanOut
  import Handshake
  import Publisher
  import Server

  /** The receive buffer after one read: as much of the incoming bytes as the window still holds. */
  function Arrived(buf: seq<Byte>, incoming: Incoming): seq<Byte>
    requires |buf| <= Handshake.WINDOW
  {
    buf + if incoming.Data? then incoming.bytes[..Min(|incoming.bytes|, Handshake.WINDOW - |buf|)] else []
  }

  class RtmpServerConnection {
    const shake_hand_: ShakeHandParser
    const rtmp_manager_: RtmpManager
    /** What passed `connection_ptr_->Send` during the handshake. */
    var replies: seq<Handshake.Reply>
    /** Whether OnBodyData has replaced OnConnectionShakeHand as the message callback. */
    var takes_body: bool
    /** Whether `connection_ptr_->Shutdown` was called. */
    var shut: bool
    /** How many sends succeed before one fails for good. */
    var passes: nat

    constructor (shake_hand: ShakeHandParser, rtmp_manager: RtmpManager)
      ensures shake_hand_ == shake_hand && rtmp_manager_ == rtmp_manager && replies == [] && !takes_body && !shut
    {
      shake_hand_, rtmp_manager_, replies := shake_hand, rtmp_manager, [];
      takes_body, shut, passes := false, false, 0;
    }

    /** What has become of the connection behind the sends of `more`. */
    ghost predicate Sent(shut: bool, passes: nat, replies: seq<Handshake.Reply>, more: seq<Handshake.Reply>)
      reads this
    {
      && this.replies == replies + Handshake.Passed(shut, passes, more)
      && this.shut == (shut || passes < |more|) && this.passes == Handshake.Left(shut, passes, more)
    }

    lemma SentTwice(shut: bool, passes: nat, replies: seq<Handshake.Reply>, a: seq<Handshake.Reply>,
                    b: seq<Handshake.Reply>)
      requires Sent(shut || passes < |a|, Handshake.Left(shut, passes, a),
                    replies + Handshake.Passed(shut, passes, a), b)
      ensures Sent(shut, passes, replies, a + b)
    {
      Handshake.PassedTwice(shut, passes, a, b);
    }

    /** TcpConnection::Send drops what it gets behind Shutdown; a send that fails for good calls it. */
    method Send(reply: Handshake.Reply)
      modifies `replies, `shut, `passes
      ensures Sent(old(shut), old(passes), old(replies), [reply])
    {
      if !shut {
        if passes > 0 {
          replies, passes := replies + [reply], passes - 1;
        } else {
          shut := true;
        }
      }
    }

    /** The four sends behind the connect message. */
    method AnswerConnect()
      modifies `replies, `shut, `passes
      ensures Sent(old(shut), old(passes), old(replies), Handshake.RepliesTo(Handshake.Connect))
    {
      Send(Handshake.AcknowledgeSize);
      Send(Handshake.PeerBandwidth);
      Send(Handshake.SetChunkSizeReply);
      Send(Handshake.ConnectResult);
    }

    /** The sends that belong to a reported step. */
    method Answer(status: Handshake.Shake)
      modifies `replies, `shut, `passes
      ensures Sent(old(shut), old(passes), old(replies), Handshake.RepliesTo(status))
    {
      match status {
        case C01 => Send(Handshake.S01);
        case C2 => Send(Handshake.S2);
        case Connect => AnswerConnect();
        case CreateStream => Send(Handshake.CreateResult);
        case Publish => Send(Handshake.PublishStart);
        case _ =>
      }
    }

    /** What the handshake's packs hold where `packs` says it, and where it still matters. */
    ghost predicate Holds(packs: Handshake.Packs, garbage: Handshake.Packs)
      reads shake_hand_, shake_hand_.connect_pack_, shake_hand_.release_pack_
    {
      && packs == garbage.(connect := packs.connect, release := packs.release)
      && (Handshake.Rank(shake_hand_.shake_hand_status_) <= 3 ==> shake_hand_.connect_pack_.Header() == packs.connect)
      && (Handshake.Rank(shake_hand_.shake_hand_status_) <= 4 ==> shake_hand_.release_pack_.Header() == packs.release)
    }

    /** One round of ShakeHand: a step, and the sends that belong to it. */
    method ShakeRound(buffer: Buffer, garbage: Handshake.Packs, ghost packs: Handshake.Packs)
      returns (reported: Handshake.Shake)
      requires shake_hand_.Valid() && buffer.Valid() && Holds(packs, garbage)
      requires buffer != shake_hand_.connect_pack_.buffer_ && buffer != shake_hand_.release_pack_.buffer_
      modifies this`replies, this`shut, this`passes, shake_hand_`shake_hand_status_, shake_hand_.connect_pack_
      modifies shake_hand_.connect_pack_.buffer_
      modifies shake_hand_.release_pack_, shake_hand_.release_pack_.buffer_, buffer
      ensures shake_hand_.Valid() && buffer.Valid() && buffer.Capacity() == old(buffer.Capacity())
      ensures var r := Handshake.Step(old(shake_hand_.shake_hand_status_), old(buffer.Contents()),
                                      packs.For(old(shake_hand_.shake_hand_status_)));
        && reported == r.reported && shake_hand_.shake_hand_status_ == r.state && buffer.Contents() == r.rest
      ensures Sent(old(shut), old(passes), old(replies), Handshake.RepliesTo(reported))
      ensures reported != Handshake.DataNotEnough ==> Holds(packs, garbage)
    {
      hide Handshake.RepliesTo, Handshake.ParseMessage;
      reported := shake_hand_.ParseShakeHand(buffer, garbage.For(shake_hand_.shake_hand_status_));
      Answer(reported);
    }

    /** The loop of ShakeHand. */
    method ShakeHand(buffer: Buffer, garbage: Handshake.Packs) returns (result: Handshake.ShakeHandResult)
      requires shake_hand_.Valid() && buffer.Valid()
      requires buffer != shake_hand_.connect_pack_.buffer_ && buffer != shake_hand_.release_pack_.buffer_
      modifies this`replies, this`shut, this`passes, shake_hand_`shake_hand_status_, shake_hand_.connect_pack_
      modifies shake_hand_.connect_pack_.buffer_
      modifies shake_hand_.release_pack_, shake_hand_.release_pack_.buffer_, buffer
      ensures shake_hand_.Valid() && buffer.Valid() && buffer.Capacity() == old(buffer.Capacity())
      ensures var packs := old(garbage.(connect := shake_hand_.connect_pack_.Header(),
                                        release := shake_hand_.release_pack_.Header()));
        var r := Handshake.Loop(old(shake_hand_.shake_hand_status_), old(buffer.Contents()), packs);
        && result == r.result && shake_hand_.shake_hand_status_ == r.state && buffer.Contents() == r.rest
        && Sent(old(shut), old(passes), old(replies), r.replies)
    {
      hide Handshake.Step, Handshake.Loop, Handshake.RepliesTo, Handshake.ParseMessage;
      ghost var packs := garbage.(connect := shake_hand_.connect_pack_.Header(),
                                  release := shake_hand_.release_pack_.Header());
      ghost var whole := Handshake.Loop(shake_hand_.shake_hand_status_, buffer.Contents(), packs);
      ghost var sent: seq<Handshake.Reply> := [];
      assert [] + whole.replies == whole.replies;
      while true
        invariant shake_hand_.Valid() && buffer.Valid() && buffer.Capacity() == old(buffer.Capacity())
        invariant Holds(packs, garbage)
        invariant var rest := Handshake.Loop(shake_hand_.shake_hand_status_, buffer.Contents(), packs);
          whole == rest.(replies := sent + rest.replies)
        invariant Sent(old(shut), old(passes), old(replies), sent)
        decreases 10 - Handshake.Rank(shake_hand_.shake_hand_status_)
      {
        Handshake.LoopAdvances(whole, shake_hand_.shake_hand_status_, buffer.Contents(), packs, sent);
        var reported := ShakeRound(buffer, garbage, packs);
        SentTwice(old(shut), old(passes), old(replies), sent, Handshake.RepliesTo(reported));
        if Handshake.Ends(reported) {
          return Handshake.ResultOf(reported);
        }
        sent := sent + Handshake.RepliesTo(reported);
      }
    }

    /** OnConnectionShakeHand; `authentic` is what the authentication callback says when it is asked, and
        `passes` how many sends succeed before one fails for good. */
    method OnConnectionShakeHand(buffer: Buffer, garbage: Handshake.Packs, authentic: bool, passes: nat)
      requires shake_hand_.Valid() && buffer.Valid()
      requires buffer != shake_hand_.connect_pack_.buffer_ && buffer != shake_hand_.release_pack_.buffer_
      modifies this`replies, this`takes_body, this`shut, this`passes
      modifies shake_hand_`shake_hand_status_, shake_hand_.connect_pack_, shake_hand_.connect_pack_.buffer_
      modifies shake_hand_.release_pack_, shake_hand_.release_pack_.buffer_, buffer
      ensures shake_hand_.Valid() && buffer.Valid() && buffer.Capacity() == old(buffer.Capacity())
      ensures var packs := old(garbage.(connect := shake_hand_.connect_pack_.Header(),
                                        release := shake_hand_.release_pack_.Header()));
        var r := Handshake.Loop(old(shake_hand_.shake_hand_status_), old(buffer.Contents()), packs);
        && shake_hand_.shake_hand_status_ == r.state && buffer.Contents() == r.rest
        && replies == old(replies) + Handshake.Passed(old(shut), passes, r.replies)
        && takes_body == (old(takes_body) || r.result == Handshake.Succeeded)
        && shut == (old(shut) || passes < |r.replies| || r.result == Handshake.HasFailed
                    || (r.result == Handshake.AuthenticateNow && !authentic))
    {
      hide Handshake.Loop;
      this.passes := passes;
      var result := ShakeHand(buffer, garbage);
      match result {
        case AuthenticateNow => shut := shut || !authentic;
        case Succeeded => takes_body := true;
        case HasFailed => shut := true;
        case NotEnough =>
      }
    }

    /** TcpConnection::OnReadable during the handshake: one read into the receive buffer, then the
        callback. A read of 0 bytes closes the connection; that is the end of the stream and nothing
        else, because there was room. There is room again for the next read if and only if the window is
        not filled by a part of a longer message. */
    method OnReadableShakeHand(recv_buffer: Buffer, incoming: Incoming, garbage: Handshake.Packs, authentic: bool,
                               passes: nat)
      returns (closed: bool)
      requires shake_hand_.Valid() && recv_buffer.Valid() && (incoming.Data? ==> incoming.bytes != [])
      requires recv_buffer != shake_hand_.connect_pack_.buffer_ && recv_buffer != shake_hand_.release_pack_.buffer_
      requires Handshake.Rank(shake_hand_.shake_hand_status_) < 8
      requires |recv_buffer.Contents()| < recv_buffer.Capacity() == Handshake.WINDOW
      modifies this`replies, this`takes_body, this`shut, this`passes
      modifies shake_hand_`shake_hand_status_, shake_hand_.connect_pack_, shake_hand_.connect_pack_.buffer_
      modifies shake_hand_.release_pack_, shake_hand_.release_pack_.buffer_, recv_buffer
      ensures shake_hand_.Valid() && recv_buffer.Valid() && recv_buffer.Capacity() == Handshake.WINDOW
      ensures closed <==> incoming.EndOfStream?
      ensures !incoming.Data? ==>
        && recv_buffer.Contents() == old(recv_buffer.Contents()) && replies == old(replies)
        && shake_hand_.shake_hand_status_ == old(shake_hand_.shake_hand_status_)
        && takes_body == old(takes_body) && shut == old(shut)
      ensures incoming.Data? ==>
        var packs := old(garbage.(connect := shake_hand_.connect_pack_.Header(),
                                  release := shake_hand_.release_pack_.Header()));
        var s, buf := old(shake_hand_.shake_hand_status_), Arrived(old(recv_buffer.Contents()), incoming);
        var r := Handshake.Loop(s, buf, packs);
        && shake_hand_.shake_hand_status_ == r.state && recv_buffer.Contents() == r.rest
        && replies == old(replies) + Handshake.Passed(old(shut), passes, r.replies)
        && takes_body == (old(takes_body) || r.result == Handshake.Succeeded)
        && shut == (old(shut) || passes < |r.replies| || r.result == Handshake.HasFailed
                    || (r.result == Handshake.AuthenticateNow && !authentic))
        && (|recv_buffer.Contents()| < recv_buffer.Capacity() <==> Handshake.FitsWindow(s, buf, packs.For(s)))
    {
      hide Handshake.Loop, Handshake.FitsWindow;
      ghost var packs := garbage.(connect := shake_hand_.connect_pack_.Header(),
                                  release := shake_hand_.release_pack_.Header());
      ghost var s, buf := shake_hand_.shake_hand_status_, Arrived(recv_buffer.Contents(), incoming);
      var result := recv_buffer.ReadFromSockfd(incoming);
      assert recv_buffer.Contents() == buf;
      if result > 0 {
        OnConnectionShakeHand(recv_buffer, garbage, authentic, passes);
        Handshake.CallLeavesRoom(s, buf, packs);
      }
      closed := result == 0;
    }

    /** The live stream as the specification of the whole server sees it. */
    ghost function View(recv_buffer: Buffer): Server.Live
      requires recv_buffer.Valid()
      reads rtmp_manager_`state, recv_buffer, rtmp_manager_.clients_`room
    {
      Server.Live(rtmp_manager_.state, recv_buffer.Contents(), rtmp_manager_.clients_.room)
    }

    /** TcpConnection::OnReadable behind the handshake, with OnBodyData as its callback. Whatever is
        sent, the window never fills up: a read of 0 bytes is the end of the stream and nothing else,
        and every byte read is given to ParseData. */
    method OnReadableBody(recv_buffer: Buffer, incoming: Incoming, locals: Publisher.Locals) returns (closed: bool)
      requires rtmp_manager_.Valid() && recv_buffer.Valid() && rtmp_manager_.Foreign(recv_buffer)
      requires incoming.Data? ==> incoming.bytes != []
      requires |recv_buffer.Contents()| < recv_buffer.Capacity() == Handshake.WINDOW
      modifies rtmp_manager_`read_chunk_size_, rtmp_manager_`parsed_status_, rtmp_manager_`last_flv_ptr_
      modifies rtmp_manager_`parsed_length_, rtmp_manager_`state, recv_buffer
      modifies rtmp_manager_.rtmp_codec_, rtmp_manager_.current_rtmp_pack_, rtmp_manager_.current_rtmp_pack_.buffer_
      modifies rtmp_manager_.clients_`last_flv_tag_ptr_, rtmp_manager_.clients_`room
      modifies rtmp_manager_.clients_.client_connection_map_.Values
      modifies rtmp_manager_.clients_.flv_manager_.script_tag_`header_
      modifies rtmp_manager_.clients_.flv_manager_.script_tag_.body_
      modifies rtmp_manager_.clients_.flv_manager_.first_tag_`header_
      modifies rtmp_manager_.clients_.flv_manager_.first_tag_.body_
      modifies rtmp_manager_.clients_.flv_manager_.second_tag_`header_
      modifies rtmp_manager_.clients_.flv_manager_.second_tag_.body_
      ensures rtmp_manager_.Valid() && recv_buffer.Valid() && rtmp_manager_.Foreign(recv_buffer)
      ensures |recv_buffer.Contents()| < recv_buffer.Capacity() == Handshake.WINDOW
      ensures closed <==> incoming.EndOfStream?
      ensures !incoming.Data? ==> View(recv_buffer) == old(View(recv_buffer))
      ensures incoming.Data? ==>
        var buf := Arrived(old(recv_buffer.Contents()), incoming);
        View(recv_buffer) == Server.Parsed(old(View(recv_buffer)).(buf := buf), locals)
    {
      hide ClientConnections.Valid, Publisher.Call, RtmpManager.Shows;
      ghost var s, buf := rtmp_manager_.state, Arrived(recv_buffer.Contents(), incoming);
      var result := recv_buffer.ReadFromSockfd(incoming);
      assert recv_buffer.Contents() == buf;
      if result > 0 {
        var parsed := rtmp_manager_.ParseData(recv_buffer, locals);
        Publisher.PublisherLeavesRoom(s, buf, locals);
      }
      closed := result == 0;
    }

    /** A viewer joins: its own bytes, the cache and the linked header tags change, the parser and every
        other viewer do not. */
    method AddClientConnection(client: RtmpClientConnection, ghost recv_buffer: Buffer)
      requires rtmp_manager_.Valid() && recv_buffer.Valid() && rtmp_manager_.Foreign(recv_buffer)
      requires rtmp_manager_.clients_.last_flv_tag_ptr_ != null
      requires client !in rtmp_manager_.clients_.client_connection_map_.Values && client.sent == []
      modifies rtmp_manager_`state, client
      modifies rtmp_manager_.clients_`client_connection_map_, rtmp_manager_.clients_`room
      modifies rtmp_manager_.clients_.header_buffer_
      modifies rtmp_manager_.clients_.last_flv_tag_ptr_`header_
      modifies rtmp_manager_.clients_.flv_manager_.first_tag_`header_
      modifies rtmp_manager_.clients_.flv_manager_.second_tag_`header_
      ensures rtmp_manager_.Valid() && recv_buffer.Valid() && rtmp_manager_.Foreign(recv_buffer)
      ensures View(recv_buffer) == Server.Joined(old(View(recv_buffer)), client.name, old(client.connected))
    {
      hide ClientConnections.Valid;
      rtmp_manager_.AddClientConnection(client);
    }

    /** A viewer's connection is gone: it is taken out of the map. */
    method OnConnectionClose(name: string, ghost recv_buffer: Buffer)
      requires rtmp_manager_.Valid() && recv_buffer.Valid()
      modifies rtmp_manager_.clients_`client_connection_map_, rtmp_manager_.clients_`room
      ensures rtmp_manager_.Valid() && recv_buffer.Valid()
      ensures View(recv_buffer) == Server.After(old(View(recv_buffer)), Server.Leave(name))
    {
      hide FanOut.Served;
      rtmp_manager_.clients_.OnConnectionClose(name);
    }
  }
}
