/**
 The output path of the connection object, over its Buffer. `o` is what write(2) answers.
 Every method does to View() what the machine of TcpModel does.
 */
module TcpConnections {
  import opened Bytes
  import opened Buffers
  import opened TcpModel

  lemma HoldNothing(s: Conn)
    ensures Hold(s, []) == s
  {
  }

  class TcpConnection {
    const hooks: Hooks
    const outputBuffer: Buffer
    var state: State
    var writeEvent: bool
    // callbacks and member calls handed to queueInLoop
    var notices: seq<Notice>
    var queuedShutdowns: nat
    var queuedCloses: nat
    // the socket
    var shut: bool
    ghost var wire: seq<Byte>
    ghost var accepted: seq<seq<Byte>>
    ghost var asked: bool

    ghost predicate Valid()
      reads this, outputBuffer
    {
      outputBuffer.Valid()
    }

    ghost function View(): Conn
      reads this, outputBuffer, outputBuffer.buffer
      requires Valid()
    {
      Conn(hooks, state, writeEvent, outputBuffer.Contents(), wire, accepted, shut, asked, queuedShutdowns,
          queuedCloses, notices)
    }

    constructor (hooks: Hooks)
      ensures Valid() && fresh(outputBuffer) && fresh(outputBuffer.buffer)
      ensures View() == Init(hooks) && Inv(View())
    {
      this.hooks := hooks;
      outputBuffer := new Buffer(INITIAL_SIZE);
      state, writeEvent, notices, queuedShutdowns, queuedCloses := Connecting, false, [], 0, 0;
      shut, wire, accepted, asked := false, [], [], false;
      new;
      InitInv(hooks);
    }

    method QueueInLoop(cb: Notice)
      modifies this`notices
      ensures notices == old(notices) + [cb]
    {
      notices := notices + [cb];
    }

    // The kernel takes what it said it would take.
    method Write(data: seq<Byte>, o: Outcome) returns (n: int, errno: Errno)
      requires o.Wrote? ==> o.n <= |data|
      modifies this`wire
      ensures match o
        case Wrote(count) => n == count && wire == old(wire) + data[..count]
        case Fails(e) => n == -1 && errno == e && wire == old(wire)
    {
      errno := 0;
      match o {
        case Wrote(count) =>
          n := count;
          wire := wire + data[..count];
        case Fails(e) =>
          n, errno := -1, e;
      }
    }

    method SendInLoop(message: seq<Byte>, o: Outcome)
      requires Valid() && Answers(View(), message, o)
      modifies this, outputBuffer, outputBuffer.buffer
      ensures Valid() && (outputBuffer.buffer == old(outputBuffer.buffer) || fresh(outputBuffer.buffer))
      ensures View() == TcpModel.SendInLoop(old(View()), message, o)
    {
      hide TcpModel.Hold;
      var nwrote, remaining := 0, |message|;
      var faultError := false;
      if state == Disconnected {
        return;
      }
      if !writeEvent && outputBuffer.ReadableBytes() == 0 {
        var errno;
        nwrote, errno := Write(message, o);
        if nwrote >= 0 {
          remaining := |message| - nwrote;
          if remaining == 0 && hooks.complete {
            QueueInLoop(WriteComplete);
          }
        } else {
          nwrote := 0;
          if errno != EWOULDBLOCK {
            if errno == EPIPE || errno == ECONNRESET {
              faultError := true;
            }
          }
        }
      }
      if !faultError {
        accepted := accepted + [message];
      }
      assert message[0..] == message && message[|message|..] == [];
      HoldNothing(View());
      if !faultError && remaining > 0 {
        Hold(message[nwrote..]);
      }
    }

    // the tail of sendInLoop
    method Hold(rest: seq<Byte>)
      requires Valid() && rest != []
      modifies this`notices, this`writeEvent, outputBuffer, outputBuffer.buffer
      ensures Valid() && (outputBuffer.buffer == old(outputBuffer.buffer) || fresh(outputBuffer.buffer))
      ensures View() == TcpModel.Hold(old(View()), rest)
    {
      var oldLen := outputBuffer.ReadableBytes();
      if oldLen + |rest| >= hooks.mark && oldLen < hooks.mark && hooks.highWater {
        QueueInLoop(HighWater(oldLen + |rest|));
      }
      outputBuffer.Append(rest);
      if !writeEvent {
        writeEvent := true;
      }
    }

    method HandleWrite(o: Outcome)
      requires Valid() && Answers(View(), outputBuffer.Contents(), o)
      modifies this, outputBuffer
      ensures Valid() && outputBuffer.buffer == old(outputBuffer.buffer)
      ensures View() == TcpModel.HandleWrite(old(View()), o)
    {
      if writeEvent {
        var n, _ := Write(outputBuffer.buffer[outputBuffer.readerIndex..outputBuffer.writerIndex], o);
        if n > 0 {
          outputBuffer.Retrieve(n);
          if outputBuffer.ReadableBytes() == 0 {
            writeEvent := false;
            if hooks.complete {
              QueueInLoop(WriteComplete);
            }
            if state == Disconnecting {
              ShutdownInLoop();
            }
          }
        }
      }
    }

    method ShutdownInLoop()
      requires Valid()
      modifies this`shut
      ensures View() == TcpModel.ShutdownInLoop(old(View()))
    {
      if !writeEvent {
        shut := true;
      }
    }

    method Shutdown()
      requires Valid()
      modifies this`state, this`queuedShutdowns
      ensures View() == Next(old(View()), TcpModel.Shutdown)
    {
      if state == Connected {
        state := Disconnecting;
        queuedShutdowns := queuedShutdowns + 1;
      }
    }

    /** The loop gets to a shutdownInLoop that was handed to it. */
    method RunShutdown()
      requires Valid() && queuedShutdowns > 0
      modifies this`shut, this`asked, this`queuedShutdowns
      ensures View() == Next(old(View()), TcpModel.RunShutdown)
    {
      queuedShutdowns := queuedShutdowns - 1;
      asked := true;
      ShutdownInLoop();
    }

    method ForceClose()
      requires Valid()
      modifies this`state, this`queuedCloses
      ensures View() == Next(old(View()), TcpModel.ForceClose)
    {
      if state == Connected || state == Disconnecting {
        state := Disconnecting;
        queuedCloses := queuedCloses + 1;
      }
    }

    method ForceCloseInLoop()
      requires Valid() && queuedCloses > 0
      modifies this`state, this`writeEvent, this`queuedCloses
      ensures View() == Next(old(View()), RunForceClose)
    {
      queuedCloses := queuedCloses - 1;
      if state == Connected || state == Disconnecting {
        HandleClose();
      }
    }

    method HandleClose()
      requires Valid()
      modifies this`state, this`writeEvent
      ensures View() == TcpModel.HandleClose(old(View()))
    {
      state := Disconnected;
      writeEvent := false;
    }

    method ConnectEstablished()
      requires Valid() && state == Connecting
      modifies this`state
      ensures View() == Next(old(View()), Established)
    {
      state := Connected;
    }

    method ConnectDestroyed()
      requires Valid()
      modifies this`state, this`writeEvent
      ensures View() == Next(old(View()), Destroyed)
    {
      if state == Connected {
        state := Disconnected;
        writeEvent := false;
      }
    }
  }
}
