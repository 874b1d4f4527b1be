/** The WebSocket client's handlers as they update its fields, over a stream that checks what Beast
    demands of its user. Each handler is proved to take the step of module `WebSocket`. */
module WebSocketClients {
  import opened WebSocket

  /** A Beast stream: which operations are outstanding, and what its peer has been sent. */
  class Stream {
    var ops: Ops
    var written: seq<string>

    constructor ()
      ensures ops == Ops(Unstarted, false, NoWrite, false, false) && written == []
    {
      ops := Ops(Unstarted, false, NoWrite, false, false);
      written := [];
    }

    method Begin(chain: Chain)
      modifies this`ops
      ensures ops == old(ops).(chain := chain)
    {
      ops := ops.(chain := chain);
    }

    method AsyncRead()
      requires !ops.reading
      modifies this`ops
      ensures ops == old(ops).(reading := true)
    {
      ops := ops.(reading := true);
    }

    method AsyncWrite(text: string)
      requires ops.write.NoWrite? && !ops.closing
      modifies this`ops
      ensures ops == old(ops).(write := Write(text, !old(ops).shut))
    {
      ops := ops.(write := Write(text, !ops.shut));
    }

    method AsyncClose()
      requires ops.write.NoWrite? && !ops.closing
      modifies this`ops
      ensures ops == old(ops).(closing := true)
    {
      ops := ops.(closing := true);
    }

    method ShutSocket()
      modifies this`ops
      ensures ops == old(ops).(shut := true)
    {
      ops := ops.(shut := true);
    }

    /** The io_context hands over the completion of the outstanding write. */
    method TakeWrite(outcome: Outcome)
      requires ops.write.Write? && (outcome.Ok? ==> ops.write.live)
      modifies this
      ensures ops == old(ops).(write := NoWrite)
      ensures written == if outcome.Ok? then old(written) + [old(ops).write.text] else old(written)
    {
      if outcome.Ok? {
        written := written + [ops.write.text];
      }
      ops := ops.(write := NoWrite);
    }

    method TakeRead()
      modifies this`ops
      ensures ops == old(ops).(reading := false)
    {
      ops := ops.(reading := false);
    }

    method TakeClose()
      modifies this`ops
      ensures ops == old(ops).(closing := false)
    {
      ops := ops.(closing := false);
    }
  }

  class WebSocketClient {
    const ws: Stream
    const tls: bool
    var state: ConnState
    var writing: bool
    var closeRequested: bool
    var stopped: bool
    var writeQueue: seq<string>
    var callbacks: seq<Event>
    ghost var accepted: seq<string>

    ghost function Abs(): Sock
      reads this, ws
    {
      Sock(state, writing, closeRequested, stopped, tls, writeQueue, ws.ops, accepted, ws.written, callbacks)
    }

    constructor (tls: bool)
      ensures fresh(ws) && Abs() == Fresh(tls)
    {
      ws := new Stream();
      this.tls := tls;
      state := Disconnected;
      writing, closeRequested, stopped := false, false, false;
      writeQueue, callbacks, accepted := [], [], [];
    }

    method Connect()
      requires Inv(Abs()) && ws.ops.chain == Unstarted
      modifies this, ws
      ensures Abs() == Next(old(Abs()), CallConnect)
    {
      if state != Disconnected {
        return;
      }
      state := Connecting;
      ws.Begin(Resolving);
    }

    method Send(message: string)
      requires Inv(Abs())
      modifies this, ws
      ensures Abs() == Next(old(Abs()), CallSend(message))
    {
      if state != Connected {
        return;
      }
      writeQueue := writeQueue + [message];
      accepted := accepted + [message];
      if !writing {
        DoWrite();
      }
    }

    method Close()
      requires Inv(Abs())
      modifies this, ws
      ensures Abs() == Next(old(Abs()), CallClose)
    {
      if state != Connected {
        return;
      }
      state := Closing;
      if writing {
        closeRequested := true;
        return;
      }
      DoClose();
    }

    method Stop()
      requires Inv(Abs())
      modifies this, ws
      ensures Abs() == Next(old(Abs()), CallStop)
    {
      if stopped {
        return;
      }
      stopped := true;
      ws.ShutSocket();
    }

    method OnResolve(ec: Outcome)
      requires Inv(Abs()) && Enabled(Abs(), Resolved(ec))
      modifies this, ws
      ensures Abs() == Next(old(Abs()), Resolved(ec))
    {
      ws.Begin(Over);
      if stopped {
        return;
      }
      if ec.Failed? {
        Fail(ec.ssl);
        return;
      }
      ws.Begin(TcpConnecting);
    }

    method OnConnect(ec: Outcome)
      requires Inv(Abs()) && Enabled(Abs(), TcpConnected(ec))
      modifies this, ws
      ensures Abs() == Next(old(Abs()), TcpConnected(ec))
    {
      ws.Begin(Over);
      if stopped {
        return;
      }
      if ec.Failed? {
        Fail(ec.ssl);
        return;
      }
      if tls {
        ws.Begin(TlsHandshaking);
      } else {
        ws.Begin(WsHandshaking);
      }
    }

    method OnSslHandshake(ec: Outcome)
      requires Inv(Abs()) && Enabled(Abs(), TlsDone(ec))
      modifies this, ws
      ensures Abs() == Next(old(Abs()), TlsDone(ec))
    {
      ws.Begin(Over);
      if stopped {
        return;
      }
      if ec.Failed? {
        Fail(ec.ssl);
        return;
      }
      ws.Begin(WsHandshaking);
    }

    method OnHandshake(ec: Outcome)
      requires Inv(Abs()) && Enabled(Abs(), HandshakeDone(ec))
      modifies this, ws
      ensures Abs() == Next(old(Abs()), HandshakeDone(ec))
    {
      ws.Begin(Over);
      if stopped {
        return;
      }
      if ec.Failed? {
        Fail(ec.ssl);
        return;
      }
      state := Connected;
      callbacks := callbacks + [Event.Open];
      DoRead();
    }

    method OnRead(read: ReadOutcome)
      requires Inv(Abs()) && Enabled(Abs(), ReadDone(read))
      modifies this, ws
      ensures Abs() == Next(old(Abs()), ReadDone(read))
    {
      ws.TakeRead();
      if stopped {
        return;
      }
      match read {
        case Received(text) =>
          callbacks := callbacks + [Message(text)];
          DoRead();
        case PeerClosed =>
          if state == Disconnected || state == Closing {
            return;
          }
          state := Disconnected;
          callbacks := callbacks + [Event.Close];
        case ReadFailed(ssl) =>
          if state == Disconnected || state == Closing {
            return;
          }
          Fail(ssl);
      }
    }

    method OnWrite(ec: Outcome)
      requires Inv(Abs()) && Enabled(Abs(), WriteDone(ec))
      modifies this, ws
      ensures Abs() == Next(old(Abs()), WriteDone(ec))
    {
      ws.TakeWrite(ec);
      writing := false;
      if stopped {
        return;
      }
      if ec.Failed? {
        if closeRequested {
          closeRequested := false;
          state := Disconnected;
          ws.ShutSocket();
          callbacks := callbacks + [Event.Close];
          return;
        }
        if state == Disconnected || state == Closing {
          return;
        }
        Fail(ec.ssl);
        return;
      }
      writeQueue := writeQueue[1..];
      if closeRequested {
        closeRequested := false;
        DoClose();
        return;
      }
      if |writeQueue| > 0 && state == Connected {
        DoWrite();
      }
    }

    method OnClose(ec: CloseOutcome)
      requires Inv(Abs()) && Enabled(Abs(), CloseDone(ec))
      modifies this, ws
      ensures Abs() == Next(old(Abs()), CloseDone(ec))
    {
      ws.TakeClose();
      state := Disconnected;
      if stopped {
        return;
      }
      if ec.CloseFailed? {
        callbacks := callbacks + [Error(ec.ssl)];
      }
      callbacks := callbacks + [Event.Close];
      assert ec.CloseFailed? ==> callbacks == old(callbacks) + [Error(ec.ssl), Event.Close];
    }

    method DoRead()
      requires !ws.ops.reading
      modifies ws
      ensures Abs() == WebSocket.DoRead(old(Abs()))
    {
      ws.AsyncRead();
    }

    method DoWrite()
      requires ws.ops.write.NoWrite? && !ws.ops.closing && |writeQueue| > 0
      modifies this`writing, ws
      ensures Abs() == WebSocket.DoWrite(old(Abs()))
    {
      writing := true;
      ws.AsyncWrite(writeQueue[0]);
    }

    method DoClose()
      requires ws.ops.write.NoWrite? && !ws.ops.closing
      modifies ws
      ensures Abs() == WebSocket.DoClose(old(Abs()))
    {
      ws.AsyncClose();
    }

    method Fail(ssl: bool)
      modifies this, ws
      ensures Abs() == WebSocket.Fail(old(Abs()), ssl)
    {
      state := Disconnected;
      closeRequested := false;
      if !writing {
        writeQueue := [];
      }
      ws.ShutSocket();
      if stopped {
        return;
      }
      callbacks := callbacks + [Error(ssl)];
      callbacks := callbacks + [Event.Close];
      assert callbacks == old(callbacks) + [Error(ssl), Event.Close];
    }
  }
}
