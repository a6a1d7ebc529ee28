/**
 One `TcpConnection` (Netmux/TcpConnection.cc): its state, and the registration of its
 channel.  The functions say what each handler does to both; the class does it in place,
 through the real `Channel` and `EPollPoller`.
 */
module Connections {
  import opened Registration
  import opened Pollers
  import BufferModel
  import Buffers

  datatype ConnState = Connecting | Connected | Disconnecting | Disconnected

  function Rank(s: ConnState): nat {
    match s
    case Connecting => 0
    case Connected => 1
    case Disconnecting => 2
    case Disconnected => 3
  }

  datatype Conn = Conn(state: ConnState, reg: Reg)

  const CREATED := Conn(Connecting, UNREGISTERED)

  function ConnectEstablished(c: Conn): Conn {
    Conn(Connected, Set(c.reg, EnableReading))
  }

  function HandleClose(c: Conn): Conn {
    Conn(Disconnected, Set(c.reg, DisableAll))
  }

  /** `written` says which remove() runs: the one in the code, or the one it was meant to be. */
  function ConnectDestroyed(c: Conn, written: bool): Conn {
    var c' := if c.state.Connected? then Conn(Disconnected, Set(c.reg, DisableAll)) else c;
    c'.(reg := if written then Update(c'.reg) else Remove(c'.reg))
  }

  /** The intended connectDestroyed leaves nothing behind, whatever state it finds. */
  lemma DestroyedLeavesNothing(c: Conn)
    requires Mirror(c.reg)
    ensures
      var r := ConnectDestroyed(c, false).reg;
      Mirror(r) && r.status.New? && r.kernel.Absent? && !r.hashed
  {
  }

  /** Whatever state it finds, connectDestroyed leaves none in which send or shutdown is accepted. */
  lemma DestroyedIsNotConnected(c: Conn, written: bool)
    ensures ConnectDestroyed(c, written).state != Connected
    ensures ConnectDestroyed(c, written).state == if c.state.Connected? then Disconnected else c.state
  {
  }

  lemma DisabledThenUpdated(r: Reg)
    requires Mirror(r)
    ensures
      var r' := Update(Set(r, DisableAll));
      r'.hashed && (r'.kernel.Absent? <==> !r.status.Added?)
  {
  }

  /**
   The written connectDestroyed leaves the channel of a connection out of the interest set
   exactly if it disables a channel that was not registered, or finds one added with an
   empty mask.
   */
  lemma WrittenDestroyUnregistersExactly(c: Conn)
    requires Mirror(c.reg)
    ensures ConnectDestroyed(c, true).reg.kernel.Absent?
            <==> if c.state.Connected? then !c.reg.status.Added?
                 else c.reg.status.Added? && c.reg.events == NONE_EVENT
    ensures ConnectDestroyed(c, true).reg.hashed
  {
    if c.state.Connected? {
      DisabledThenUpdated(c.reg);
    } else {
      WrittenRemoveUnregistersExactly(c.reg);
    }
  }

  /** Run callbacks in order; `endOfFile` says that a read finds the peer's side closed. */
  function Dispatch(c: Conn, callbacks: seq<Callback>, endOfFile: bool): Conn
    decreases |callbacks|
  {
    if callbacks == [] then c
    else
      var closes := callbacks[0].OnClose? || (callbacks[0].OnRead? && endOfFile);
      Dispatch(if closes then HandleClose(c) else c, callbacks[1..], endOfFile)
  }

  /**
   One dispatch of a registered channel.  It disconnects exactly when a hang-up or an end
   of file is seen, and then the channel leaves the interest set unless both are: a second
   handleClose in the same dispatch registers the channel again, with an empty mask.
   */
  lemma DispatchExactly(c: Conn, revents: Mask, endOfFile: bool)
    requires Mirror(c.reg) && c.reg.status.Added? && !c.state.Disconnected?
    ensures
      var hangUp := revents & EPOLLHUP != 0 && revents & EPOLLIN == 0;
      var readEof := endOfFile && revents & (EPOLLIN | EPOLLPRI) != 0;
      var c' := Dispatch(c, Callbacks(revents), endOfFile);
      && Mirror(c'.reg)
      && (c'.state.Disconnected? <==> hangUp || readEof)
      && (c'.reg.kernel.Absent? <==> (hangUp || readEof) && !(hangUp && readEof))
      && (hangUp && readEof ==> c'.reg.kernel == Present(NONE_EVENT))
  {
    DispatchParts(c, revents, endOfFile);
  }

  /**
   A connection can be closed twice like that: what it takes is a report within its mask
   that hangs up without input, and such a report exists.
   */
  lemma DoubleCloseIsReportable() returns (revents: Mask)
    ensures Reportable(revents, READ_EVENT) && revents & EPOLLHUP != 0 && revents & EPOLLIN == 0
    ensures Dispatch(ConnectEstablished(CREATED), Callbacks(revents), true).reg.kernel == Present(NONE_EVENT)
  {
    revents := EPOLLHUP | EPOLLPRI;
    DispatchExactly(ConnectEstablished(CREATED), revents, true);
  }

  function CloseIf(c: Conn, closes: bool): Conn {
    if closes then HandleClose(c) else c
  }

  lemma {:induction false} DispatchAppend(c: Conn, a: seq<Callback>, b: seq<Callback>, endOfFile: bool)
    ensures Dispatch(c, a + b, endOfFile) == Dispatch(Dispatch(c, a, endOfFile), b, endOfFile)
    decreases |a|
  {
    if a == [] {
      assert a + b == b;
    } else {
      assert (a + b)[1..] == a[1..] + b;
      DispatchAppend(CloseIf(c, a[0].OnClose? || (a[0].OnRead? && endOfFile)), a[1..], b, endOfFile);
    }
  }

  lemma DispatchOne(c: Conn, callback: Callback, endOfFile: bool)
    ensures Dispatch(c, [callback], endOfFile)
            == CloseIf(c, callback.OnClose? || (callback.OnRead? && endOfFile))
  {
    assert [callback][1..] == [];
  }

  /** Of the four callbacks only the close callback and the read callback can close. */
  lemma DispatchParts(c: Conn, revents: Mask, endOfFile: bool)
    ensures
      var hangUp := revents & EPOLLHUP != 0 && revents & EPOLLIN == 0;
      var readEof := endOfFile && revents & (EPOLLIN | EPOLLPRI) != 0;
      Dispatch(c, Callbacks(revents), endOfFile) == CloseIf(CloseIf(c, hangUp), readEof)
  {
    var close := if revents & EPOLLHUP != 0 && revents & EPOLLIN == 0 then [OnClose] else [];
    var error := if revents & EPOLLERR != 0 then [OnError] else [];
    var read := if revents & (EPOLLIN | EPOLLPRI) != 0 then [OnRead] else [];
    var write := if revents & WRITE_EVENT != 0 then [OnWrite] else [];
    DispatchAppend(c, close + error + read, write, endOfFile);
    DispatchAppend(c, close + error, read, endOfFile);
    DispatchAppend(c, close, error, endOfFile);
    forall d: Conn, callback: Callback
      ensures Dispatch(d, [callback], endOfFile)
              == CloseIf(d, callback.OnClose? || (callback.OnRead? && endOfFile))
    {
      DispatchOne(d, callback, endOfFile);
    }
  }

  /**
   A live connection with bytes waiting is closed by its own handleRead exactly when its
   input buffer is full or has at least 64 KiB of slack, whatever the kernel chooses to give.
   */
  lemma LiveConnectionClosedExactly(c: Conn, m: BufferModel.Model, waiting: seq<BufferModel.byte>, chunk: nat)
    requires m.Valid() && c.state.Connected? && waiting != [] && chunk > 0
    ensures
      var capacity := BufferModel.Capacity(m.Writable(), BufferModel.IovCount(m.Writable()));
      var data := BufferModel.Readv(waiting, capacity, chunk);
      CloseIf(c, data == []).state.Disconnected?
      <==> m.Writable() == 0 || m.Writable() >= BufferModel.EXTRA
  {
    BufferModel.FalseEndOfFileExactly(m, waiting, chunk);
  }

  class TcpConnection {
    const channel: Channel
    const poller: EPollPoller  // that of loop_
    var state: ConnState

    constructor (channel: Channel, poller: EPollPoller)
      ensures this.channel == channel && this.poller == poller && state == Connecting
    {
      this.channel, this.poller, state := channel, poller, Connecting;
    }

    ghost predicate Valid()
      reads this, poller, poller.channels
    {
      poller.Valid() && channel in poller.channels
    }

    ghost function View(): Conn
      reads this, poller, channel
    {
      Conn(state, poller.View(channel))
    }

    method Established()
      requires Valid()
      modifies this, channel, poller
      ensures Valid() && poller.Touched(channel)
      ensures View() == ConnectEstablished(old(View()))
    {
      state := Connected;
      channel.Change(EnableReading, poller);
    }

    method Close()
      requires Valid()
      modifies this, channel, poller
      ensures Valid() && poller.Touched(channel)
      ensures View() == HandleClose(old(View()))
    {
      state := Disconnected;
      channel.Change(DisableAll, poller);
    }

    /** handleRead: bytes go to the message callback, an error is logged, zero bytes close. */
    method HandleRead(inputBuffer: Buffers.Buffer, result: Buffers.ReadResult) returns (message: bool)
      requires Valid() && inputBuffer.Valid()
      requires result.Got? ==> |result.data| <= inputBuffer.WritableBytes() + BufferModel.EXTRA
      modifies this, channel, poller, inputBuffer, inputBuffer.buffer
      ensures Valid() && inputBuffer.Valid() && poller.Touched(channel)
      ensures message <==> result.Got? && result.data != []
      ensures inputBuffer.View() == if result.Got? then BufferModel.Receive(old(inputBuffer.View()), result.data)
                                    else old(inputBuffer.View())
      ensures View() == CloseIf(old(View()), result == Buffers.Got([]))
    {
      var n, saveErrno := inputBuffer.ReadFd(result);
      message := n > 0;
      if n == 0 {
        Close();
      }
    }

    /**
     Channel::handleEventWithGuard with this connection's handlers, for any report and any
     result of the read: the callbacks of the report in order, bytes read to the buffer, and
     the message callback exactly for those; error and write handlers touch none of it.
     */
    method HandleEvent(revents: Mask, inputBuffer: Buffers.Buffer, result: Buffers.ReadResult)
      returns (message: bool, ran: seq<Callback>)
      requires Valid() && inputBuffer.Valid()
      requires result.Got? ==> |result.data| <= inputBuffer.WritableBytes() + BufferModel.EXTRA
      modifies this, channel, poller, inputBuffer, inputBuffer.buffer
      ensures Valid() && inputBuffer.Valid() && poller.Touched(channel)
      ensures ran == Callbacks(revents)
      ensures View() == Dispatch(old(View()), Callbacks(revents), result == Buffers.Got([]))
      ensures message <==> revents & (EPOLLIN | EPOLLPRI) != 0 && result.Got? && result.data != []
      ensures inputBuffer.View() == if message then BufferModel.Receive(old(inputBuffer.View()), result.data)
                                    else old(inputBuffer.View())
    {
      DispatchParts(View(), revents, result == Buffers.Got([]));
      var hangUp := revents & EPOLLHUP != 0 && revents & EPOLLIN == 0;
      var error := revents & EPOLLERR != 0;
      var readable := revents & (EPOLLIN | EPOLLPRI) != 0;
      var writable := revents & WRITE_EVENT != 0;
      message, ran := false, [];
      if hangUp {
        ran := [OnClose];
        Close();
      }
      if error {
        ran := ran + [OnError];
      }
      if readable {
        ran := ran + [OnRead];
        message := HandleRead(inputBuffer, result);
      }
      if writable {
        ran := ran + [OnWrite];
      }
    }

    /** connectDestroyed as written. */
    method Destroyed()
      requires Valid()
      modifies this, channel, poller
      ensures Valid() && poller.Touched(channel)
      ensures View() == ConnectDestroyed(old(View()), true)
      ensures state == if old(state).Connected? then Disconnected else old(state)
    {
      if state == Connected {
        state := Disconnected;
        channel.Change(DisableAll, poller);
      }
      channel.Remove(poller);
    }

    /** connectDestroyed with remove() forwarded to removeChannel. */
    method DestroyedIntended()
      requires Valid()
      modifies this, channel, poller
      ensures Valid() && poller.Touched(channel)
      ensures View() == ConnectDestroyed(old(View()), false)
      ensures state == if old(state).Connected? then Disconnected else old(state)
    {
      if state == Connected {
        state := Disconnected;
        channel.Change(DisableAll, poller);
      }
      channel.Unregister(poller);
    }
  }
}
