/** A connection as the server holds it in memory: its identity, its outbound queue and its socket. */
module Connections {
  import opened UserKey
  import opened Outbound
  import opened Hub

  type Time = t: int | 0 <= t < 0x1_0000_0000_0000_0000

  class Client {
    const addr: string
    const firstTime: Time
    var send: Chan<Frame>
    var socket: seq<Frame>         // the frames handed to the socket
    var writing: bool              // the writer goroutine has not returned
    var appId: AppId
    var userId: string
    var heartbeatTime: Time
    var loginTime: Time

    function Queue(): Out
      reads this
    {
      Out(send, socket, writing)
    }

    function View(): Conn
      reads this
    {
      Conn(addr, appId, userId, Queue())
    }

    ghost predicate Valid()
      reads this
    {
      Sound(Queue())
    }

    constructor NewClient(remoteAddr: string, currentTime: Time)
      ensures View() == Conn(remoteAddr, 0, "", FRESH) && Valid()
      ensures heartbeatTime == firstTime == currentTime
    {
      addr, firstTime, heartbeatTime, loginTime := remoteAddr, currentTime, currentTime, 0;
      send, socket, writing := Chan([], SEND_CAPACITY, false), [], true;
      appId, userId := 0, "";
    }

    predicate IsLogin()
      reads this
    {
      userId != ""
    }

    method Heartbeat(currentTime: Time)
      modifies this`heartbeatTime
      ensures heartbeatTime == currentTime
    {
      heartbeatTime := currentTime;
    }

    method Login(appId: AppId, userId: string, currentTime: Time)
      modifies this`appId, this`userId, this`loginTime, this`heartbeatTime
      ensures View() == old(View()).(appId := appId, userId := userId)
      ensures loginTime == heartbeatTime == currentTime
    {
      this.appId := appId;
      this.userId := userId;
      loginTime := currentTime;
      Heartbeat(currentTime);
    }

    /** The writer goroutine's loop, as far as k frames take it. */
    method Drain(k: nat)
      requires Valid() && k <= |send.buf| && (k > 0 ==> writing)
      modifies this`send, this`socket
      ensures Valid() && socket + send.buf == old(socket + send.buf)
      ensures socket == old(socket) + old(send.buf)[..k] && send == old(send).(buf := old(send.buf)[k..])
    {
      var i := 0;
      while i < k
        invariant i <= k && send == old(send).(buf := old(send.buf)[i..])
        invariant socket == old(socket) + old(send.buf)[..i]
      {
        var message := send.buf[0];
        send := send.(buf := send.buf[1..]);
        socket := socket + [message];
        i := i + 1;
      }
    }

    /** Runs until the queue is empty: returns for good if it is closed by then, and waits otherwise. */
    method Write()
      requires Valid() && writing
      modifies this`send, this`socket, this`writing
      ensures Valid() && socket == old(socket + send.buf) && send == old(send).(buf := [])
      ensures writing <==> !send.closed
    {
      Drain(|send.buf|);
      if send.closed {
        writing := false;
      }
    }

    /** A send to an open queue waits for the writer to make room. The writer may also run at any other time. */
    method Put(msg: Frame)
      requires Valid() && !send.closed
      modifies this`send, this`socket
      ensures Valid() && !send.closed && send.buf != []
      ensures socket + send.buf == old(socket + send.buf) + [msg] && old(socket) <= socket
    {
      var k :| 0 <= k <= |send.buf| && (send.HasRoom() || k > 0);
      Drain(k);
      assert send.HasRoom();
      send := send.(buf := send.buf + [msg]);
    }

    /** A send on a closed queue panics; the panic is recovered and nothing happens. */
    method SendMsg(msg: Frame)
      requires Valid()
      modifies this`send, this`socket
      ensures Valid() && send.closed == old(send.closed) && old(socket) <= socket
      ensures socket + send.buf == old(socket + send.buf) + if old(send.closed) then [] else [msg]
    {
      if send.closed {
        return;
      }
      Put(msg);
    }

    /** Closing a closed queue panics. */
    method Close() returns (panicked: bool)
      requires Valid()
      modifies this`send
      ensures Valid() && panicked == old(send.closed)
      ensures Queue() == Shutting(old(Queue()))
    {
      panicked := send.closed;
      send := send.(closed := true);
    }
  }
}
