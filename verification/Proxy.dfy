/**
 The proxy connection as the two objects that keep it, their fields updated in place. Each method
 is tied to its handler in ProxySpec; `Connection.Drive` runs any timely schedule of completions.
 */
module Proxy {
  import opened Basics
  import opened SocketLifetime
  import P = ProxySpec
  import R = ProxyRuns

  /** `proxy::connection::server`. The session history and the accept counts are ghost. */
  class Server {
    const client: Client
    const recvbuf: array<byte>
    var sock: P.Sock
    var sendbuf: P.View
    var nconnections: uint32
    var timerArmed: bool
    var open: bool
    var mutex: uint32

    ghost var received: seq<byte>
    ghost var delivered: seq<byte>
    ghost var owing: bool
    ghost var accepts: nat
    ghost var refused: nat
    ghost var sessions: nat

    constructor (client: Client)
      ensures this.client == client && fresh(recvbuf) && recvbuf.Length == P.BUFFER_SIZE
      ensures Half() == P.Half(P.QUIET, false, recvbuf[..], P.View(0, 0), [], [], false)
      ensures mutex == 0 && nconnections == 0 && !timerArmed
      ensures accepts == 0 && refused == 0 && sessions == 0
    {
      this.client := client;
      recvbuf := new byte[P.BUFFER_SIZE];
      sock, sendbuf := P.QUIET, P.View(0, 0);
      nconnections, timerArmed, open, mutex := 0, false, false, 0;
      received, delivered, owing := [], [], false;
      accepts, refused, sessions := 0, 0, 0;
    }

    ghost function Half(): P.Half
      reads this, recvbuf
    {
      P.Half(sock, open, recvbuf[..], sendbuf, received, delivered, owing)
    }

    ghost function Slot(): P.Slot
      reads this, recvbuf, client, client.recvbuf
    {
      P.Slot(Half(), client.Half(), nconnections, timerArmed, accepts, refused, sessions)
    }

    /** Between handlers both close locks are free. */
    ghost predicate Valid()
      reads this, client
    {
      && client.server == this
      && recvbuf != client.recvbuf
      && recvbuf.Length == client.recvbuf.Length == P.BUFFER_SIZE
      && mutex == 0 && client.mutex == 0
    }

    method Accept(init: Init)
      requires Valid()
      modifies this
      ensures Valid() && Slot() == P.Accept(old(Slot()), init)
    {
      sock := sock.(accepting := true, life := Initialize(sock.life, init));
      accepts := accepts + 1;
    }

    method Connected()
      requires Valid()
      modifies this, client
      ensures Valid()
      ensures Slot() == old(Slot()).(nconnections := 2, timerArmed := false,
                                     server := P.StartReceive(old(Slot()).server),
                                     client := P.StartReceive(old(Slot()).client))
    {
      nconnections := 2;
      Receive();
      client.Receive();
    }

    method Receive()
      requires Valid()
      modifies this
      ensures Valid()
      ensures Slot() == old(Slot()).(timerArmed := false, server := P.StartReceive(old(Slot()).server))
    {
      StopTimer();
      sock := sock.(receiving := true, receiveCancelled := false);
    }

    method Send(view: P.View)
      requires Valid()
      modifies this
      ensures Valid()
      ensures Slot() == old(Slot()).(timerArmed := true, server := P.StartSend(old(Slot()).server, view))
    {
      sendbuf, owing := view, true;
      StartTimer();
      sock := sock.(sending := true, sendCancelled := false);
    }

    method CloseConnections(cancelTimer: bool)
      requires Valid()
      modifies this, client
      ensures Valid() && Slot() == P.CloseConnections(old(Slot()), cancelTimer)
    {
      client.Close();
      Close(cancelTimer);
    }

    method Close(cancelTimer: bool)
      requires Valid()
      modifies this
      ensures Valid() && Slot() == P.CloseServer(old(Slot()), cancelTimer)
    {
      mutex := 1;
      if open {
        open := false;
        mutex := Decrement(mutex);
        if cancelTimer {
          StopTimer();
        }
        sock := sock.(receiveCancelled := sock.receiving, sendCancelled := sock.sending, disconnecting := true);
      } else {
        mutex := Decrement(mutex);
      }
    }

    method Disconnected(init: Init)
      requires Valid()
      modifies this
      ensures Valid() && Slot() == P.Disconnected(old(Slot()), init)
    {
      nconnections := Decrement(nconnections);
      if nconnections == 0 {
        Accept(init);
      }
    }

    method Accepted(init: Init)
      requires Valid()
      modifies this, client
      ensures Valid() && Slot() == P.Accepted(old(Slot()), init)
    {
      nconnections := 1;
      open := true;
      sessions := sessions + 1;
      received, delivered, owing := [], [], false;
      ghost var half := old(Half()).(open := true, received := [], delivered := [], owing := false);
      assert Half() == half;
      Connect(init);
      assert Half() == half;
    }

    method Connect(init: Init)
      requires Valid()
      modifies `timerArmed, client
      ensures Valid() && timerArmed && client.Half() == P.StartConnect(old(client.Half()), init)
    {
      StartTimer();
      client.Connect(init);
    }

    method Received(transferred: nat)
      requires Valid() && transferred <= P.BUFFER_SIZE
      modifies this, client
      ensures Valid() && Slot() == P.Received(old(Slot()), P.Server, transferred)
    {
      if transferred > 0 {
        received := received + recvbuf[..transferred];
        StartTimer();
        client.Send(P.View(0, transferred));
      } else {
        CloseConnections(true);
      }
    }

    method Sent(count: nat)
      requires Valid() && count <= sendbuf.length
      requires sendbuf.offset + sendbuf.length <= P.BUFFER_SIZE
      modifies this, client
      ensures Valid() && Slot() == P.Sent(old(Slot()), P.Server, count)
    {
      delivered := delivered + client.recvbuf[sendbuf.offset..sendbuf.offset + count];
      if count == sendbuf.length {
        owing := false;
        StopTimer();
        client.Receive();
      } else {
        Send(P.View(sendbuf.offset + count, sendbuf.length - count));
      }
    }

    /** Does not cancel the timer whose callback it is. */
    method Timer()
      requires Valid()
      modifies this, client
      ensures Valid() && Slot() == P.CloseConnections(old(Slot()), false)
    {
      CloseConnections(false);
    }

    method StartTimer()
      modifies `timerArmed
      ensures timerArmed
    {
      timerArmed := true;
    }

    method StopTimer()
      modifies `timerArmed
      ensures !timerArmed
    {
      timerArmed := false;
    }
  }

  /** `proxy::connection::client`. */
  class Client {
    var server: Server?
    const recvbuf: array<byte>
    var sock: P.Sock
    var sendbuf: P.View
    var open: bool
    var mutex: uint32

    ghost var received: seq<byte>
    ghost var delivered: seq<byte>
    ghost var owing: bool

    constructor ()
      ensures fresh(recvbuf) && recvbuf.Length == P.BUFFER_SIZE && server == null && mutex == 0
      ensures Half() == P.Half(P.QUIET, false, recvbuf[..], P.View(0, 0), [], [], false)
    {
      server := null;
      recvbuf := new byte[P.BUFFER_SIZE];
      sock, sendbuf, open, mutex := P.QUIET, P.View(0, 0), false, 0;
      received, delivered, owing := [], [], false;
    }

    ghost function Half(): P.Half
      reads this, recvbuf
    {
      P.Half(sock, open, recvbuf[..], sendbuf, received, delivered, owing)
    }

    ghost predicate Paired()
      reads this, server, if server == null then {} else {server.client}
    {
      server != null && server.client == this && server.Valid()
    }

    method Connect(init: Init)
      modifies this
      ensures Half() == P.StartConnect(old(Half()), init) && server == old(server) && mutex == old(mutex)
    {
      received, delivered, owing := [], [], false;
      sock := sock.(connecting := true, life := Initialize(sock.life, init));
    }

    method Close()
      requires mutex == 0
      modifies this
      ensures Half() == if old(open) then P.CancelAndDisconnect(old(Half())) else old(Half())
      ensures server == old(server) && mutex == 0
    {
      mutex := 1;
      if open {
        open := false;
        mutex := Decrement(mutex);
        sock := sock.(receiveCancelled := sock.receiving, sendCancelled := sock.sending, disconnecting := true);
      } else {
        mutex := Decrement(mutex);
      }
    }

    method Receive()
      modifies this
      ensures Half() == P.StartReceive(old(Half())) && server == old(server) && mutex == old(mutex)
    {
      sock := sock.(receiving := true, receiveCancelled := false);
    }

    method Send(view: P.View)
      modifies this
      ensures Half() == P.StartSend(old(Half()), view) && server == old(server) && mutex == old(mutex)
    {
      sendbuf, owing := view, true;
      sock := sock.(sending := true, sendCancelled := false);
    }

    method Connected()
      requires Paired()
      modifies this, server
      ensures Paired() && server == old(server)
      ensures server.Slot() == P.Connected(old(server.Slot()))
    {
      open := true;
      server.Connected();
    }

    method Received(transferred: nat)
      requires Paired() && transferred <= P.BUFFER_SIZE
      modifies this, server
      ensures Paired() && server == old(server)
      ensures server.Slot() == P.Received(old(server.Slot()), P.Client, transferred)
    {
      if transferred > 0 {
        received := received + recvbuf[..transferred];
        server.Send(P.View(0, transferred));
      } else {
        server.CloseConnections(true);
      }
    }

    method Sent(count: nat)
      requires Paired() && count <= sendbuf.length
      requires sendbuf.offset + sendbuf.length <= P.BUFFER_SIZE
      modifies this, server
      ensures Paired() && server == old(server)
      ensures server.Slot() == P.Sent(old(server.Slot()), P.Client, count)
    {
      delivered := delivered + server.recvbuf[sendbuf.offset..sendbuf.offset + count];
      if count == sendbuf.length {
        owing := false;
        server.Receive();
      } else {
        Send(P.View(sendbuf.offset + count, sendbuf.length - count));
      }
    }

    method Disconnected(init: Init)
      requires Paired()
      modifies server
      ensures Paired() && server.Slot() == P.Disconnected(old(server.Slot()), init)
    {
      server.Disconnected(init);
    }
  }

  /** `proxy::connection`: the pair, its first accept issued. */
  class Connection {
    const server: Server
    const client: Client

    constructor (init: Init)
      ensures Valid() && R.Starts(server.Slot())
      ensures fresh(server) && fresh(client) && fresh(server.recvbuf) && fresh(client.recvbuf)
    {
      var c := new Client();
      client := c;
      server := new Server(c);
      new;
      client.server := server;
      server.Accept(init);
      assert server.Slot() == P.Initial(server.recvbuf[..], client.recvbuf[..], init);
    }

    ghost predicate Valid()
      reads this, server, client
    {
      server.client == client && server.Valid()
    }

    /** The socket's own part of a completion, then `complete` of the half it belongs to. */
    method Dispatch(e: P.Event)
      requires Valid() && R.Inv(server.Slot()) && P.Enabled(server.Slot(), e)
      modifies server, client, server.recvbuf, client.recvbuf
      ensures Valid() && server.Slot() == P.Step(old(server.Slot()), e)
    {
      match e
      case AcceptDone(accepted, init) => FinishAccept(accepted, init);
      case ConnectDone(connected) => FinishConnect(connected);
      case ReceiveDone(side, result) => FinishReceive(side, result);
      case SendDone(side, result) => FinishSend(side, result);
      case DisconnectDone(side, init) => FinishDisconnect(side, init);
      case TimerFires =>
        server.timerArmed := false;
        server.Timer();
      case OsFills(side, contents) =>
        var buf := if side.Server? then server.recvbuf else client.recvbuf;
        forall i | 0 <= i < buf.Length { buf[i] := contents[i]; }
        assert buf[..] == contents;
    }

    method FinishAccept(accepted: bool, init: Init)
      requires Valid() && P.Enabled(server.Slot(), P.AcceptDone(accepted, init))
      modifies server, client
      ensures Valid() && server.Slot() == P.Step(old(server.Slot()), P.AcceptDone(accepted, init))
    {
      server.sock := server.sock.(accepting := false);
      if accepted {
        server.Accepted(init);
      } else {
        if server.sock.life.handle {
          server.sock := server.sock.(life := Close(server.sock.life));
        }
        server.refused := server.refused + 1;
        server.Accept(init);
      }
    }

    method FinishConnect(connected: bool)
      requires Valid() && P.Enabled(server.Slot(), P.ConnectDone(connected))
      modifies server, client
      ensures Valid() && server.Slot() == P.Step(old(server.Slot()), P.ConnectDone(connected))
    {
      client.sock := client.sock.(connecting := false);
      if connected {
        client.Connected();
      } else {
        if client.sock.life.handle {
          client.sock := client.sock.(life := Close(client.sock.life));
        }
        server.Close(true);
      }
    }

    method FinishDisconnect(side: P.Side, init: Init)
      requires Valid() && P.Enabled(server.Slot(), P.DisconnectDone(side, init))
      modifies server, client
      ensures Valid() && server.Slot() == P.Step(old(server.Slot()), P.DisconnectDone(side, init))
    {
      if side.Server? {
        server.sock := server.sock.(disconnecting := false, life := Close(server.sock.life));
        server.Disconnected(init);
      } else {
        client.sock := client.sock.(disconnecting := false, life := Close(client.sock.life));
        client.Disconnected(init);
      }
    }

    method FinishReceive(side: P.Side, result: P.IoResult)
      requires Valid() && P.Enabled(server.Slot(), P.ReceiveDone(side, result))
      modifies server, client
      ensures Valid() && server.Slot() == P.Step(old(server.Slot()), P.ReceiveDone(side, result))
    {
      if side.Server? {
        server.sock := server.sock.(receiving := false, receiveCancelled := false);
      } else {
        client.sock := client.sock.(receiving := false, receiveCancelled := false);
      }
      match result
      case Ok(count) => if side.Server? { server.Received(count); } else { client.Received(count); }
      case Error => server.CloseConnections(true);
      case Aborted =>
    }

    method FinishSend(side: P.Side, result: P.IoResult)
      requires Valid() && R.Inv(server.Slot()) && P.Enabled(server.Slot(), P.SendDone(side, result))
      modifies server, client
      ensures Valid() && server.Slot() == P.Step(old(server.Slot()), P.SendDone(side, result))
    {
      if side.Server? {
        server.sock := server.sock.(sending := false, sendCancelled := false);
      } else {
        client.sock := client.sock.(sending := false, sendCancelled := false);
      }
      match result
      case Ok(count) => if side.Server? { server.Sent(count); } else { client.Sent(count); }
      case Error => server.CloseConnections(true);
      case Aborted =>
    }

    /** Any timely schedule of completions, from any state that keeps the invariant. */
    method Drive(es: seq<P.Event>)
      requires Valid() && R.Inv(server.Slot()) && P.TimelyRun(server.Slot(), es)
      modifies server, client, server.recvbuf, client.recvbuf
      ensures Valid() && P.Possible(old(server.Slot()), es)
      ensures R.Inv(server.Slot()) && server.Slot() == P.Run(old(server.Slot()), es)
    {
      R.RunKeepsInv(server.Slot(), es);
      for i := 0 to |es|
        invariant Valid() && R.Inv(server.Slot()) && P.TimelyRun(server.Slot(), es[i..])
        invariant P.Possible(server.Slot(), es[i..])
        invariant P.Run(server.Slot(), es[i..]) == P.Run(old(server.Slot()), es)
      {
        assert es[i..][0] == es[i] && es[i..][1..] == es[i + 1..];
        R.StepKeepsInv(server.Slot(), es[i]);
        Dispatch(es[i]);
      }
    }
  }
}
