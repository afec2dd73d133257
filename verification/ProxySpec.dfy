/**
 The proxy slot as a state machine: one `proxy::connection`, that is, its server half, its client
 half, and the operations the OS has in hand for their two sockets. Every completion handler is one
 step. A call that starts an operation makes it outstanding; its completion is a later step.
 */
module ProxySpec {
  import opened Basics
  import opened SocketLifetime

  const BUFFER_SIZE := 32768

  datatype Side = Server | Client

  /** One asynchronous socket, with the operations outstanding on it. */
  datatype Sock = Sock(
    life: Lifetime,
    accepting: bool,
    connecting: bool,
    receiving: bool,
    sending: bool,
    disconnecting: bool,
    receiveCancelled: bool,
    sendCancelled: bool)

  /** `buffer_view`: a stretch of the other half's receive buffer. */
  datatype View = View(offset: nat, length: nat)

  /**
   One half. `received` and `delivered` are the history of this half's socket in the current
   session: the bytes that arrived on it, and the bytes handed over on it. `owing` says that the
   last view given to this half has not been handed over in full.
   */
  datatype Half = Half(
    sock: Sock,
    open: bool,
    recvbuf: seq<byte>,
    sendbuf: View,
    received: seq<byte>,
    delivered: seq<byte>,
    owing: bool)

  /** `sessions`, `refused` and `accepts` count accepted connections, failed and issued accepts. */
  datatype Slot = Slot(
    server: Half,
    client: Half,
    nconnections: uint32,
    timerArmed: bool,
    accepts: nat,
    refused: nat,
    sessions: nat)

  datatype IoResult = Ok(count: nat) | Error | Aborted

  /** What the OS can do next. `init` is how the next socket creation will go, if there is one. */
  datatype Event =
    | AcceptDone(accepted: bool, init: Init)
    | ConnectDone(connected: bool)
    | ReceiveDone(side: Side, result: IoResult)
    | SendDone(side: Side, result: IoResult)
    | DisconnectDone(side: Side, init: Init)
    | TimerFires
    | OsFills(side: Side, contents: seq<byte>)

  function Get(s: Slot, side: Side): Half {
    if side.Server? then s.server else s.client
  }

  function Put(s: Slot, side: Side, h: Half): Slot {
    if side.Server? then s.(server := h) else s.(client := h)
  }

  function Other(side: Side): Side {
    if side.Server? then Client else Server
  }

  // The asynchronous socket, as the halves use it.

  function StartReceive(h: Half): Half {
    h.(sock := h.sock.(receiving := true, receiveCancelled := false))
  }

  function StartSend(h: Half, view: View): Half {
    h.(sendbuf := view, owing := true,
       sock := h.sock.(sending := true, sendCancelled := false))
  }

  /** The client half of a new session. */
  function StartConnect(h: Half, init: Init): Half {
    h.(received := [], delivered := [], owing := false,
       sock := h.sock.(connecting := true, life := Initialize(h.sock.life, init)))
  }

  /** The two cancels reach only what is outstanding. */
  function CancelAndDisconnect(h: Half): Half {
    h.(open := false,
       sock := h.sock.(receiveCancelled := h.sock.receiving,
                       sendCancelled := h.sock.sending,
                       disconnecting := true))
  }

  // The handlers.

  function Accept(s: Slot, init: Init): Slot {
    s.(accepts := s.accepts + 1,
       server := s.server.(sock := s.server.sock.(
         accepting := true, life := Initialize(s.server.sock.life, init))))
  }

  function Accepted(s: Slot, init: Init): Slot {
    var server := s.server.(open := true, received := [], delivered := [], owing := false);
    s.(server := server, client := StartConnect(s.client, init), nconnections := 1, timerArmed := true,
       sessions := s.sessions + 1)
  }

  function Connected(s: Slot): Slot {
    s.(nconnections := 2, timerArmed := false,
       server := StartReceive(s.server),
       client := StartReceive(s.client.(open := true)))
  }

  function CloseClient(s: Slot): Slot {
    if s.client.open then s.(client := CancelAndDisconnect(s.client)) else s
  }

  function CloseServer(s: Slot, cancelTimer: bool): Slot {
    if s.server.open then
      s.(server := CancelAndDisconnect(s.server), timerArmed := s.timerArmed && !cancelTimer)
    else s
  }

  function CloseConnections(s: Slot, cancelTimer: bool): Slot {
    CloseServer(CloseClient(s), cancelTimer)
  }

  function Disconnected(s: Slot, init: Init): Slot {
    var s' := s.(nconnections := Decrement(s.nconnections));
    if s'.nconnections == 0 then Accept(s', init) else s'
  }

  /** Bytes arrived on one half: pass them to the other, or take zero bytes as end of stream. */
  function Received(s: Slot, side: Side, count: nat): Slot {
    if count == 0 then CloseConnections(s, true)
    else
      var near := Get(s, side);
      var s' := Put(s, side, near.(received := near.received + Stretch(near.recvbuf, 0, count)));
      var view := View(0, count);
      if side.Server? then s'.(client := StartSend(s'.client, view), timerArmed := true)
      else s'.(server := StartSend(s'.server, view), timerArmed := true)
  }

  /** Bytes were handed over on one half: send the rest, or let the other half receive again. */
  function Sent(s: Slot, side: Side, count: nat): Slot
    requires count <= Get(s, side).sendbuf.length
  {
    var far := Get(s, side);
    var near := Get(s, Other(side));
    var v := far.sendbuf;
    var far' := far.(delivered := far.delivered + Stretch(near.recvbuf, v.offset, count));
    if count == v.length then
      var s' := Put(s, side, far'.(owing := false));
      Put(s', Other(side), StartReceive(near)).(timerArmed := false)
    else
      var s' := Put(s, side, StartSend(far', View(v.offset + count, v.length - count)));
      if side.Server? then s'.(timerArmed := true) else s'
  }

  function FinishReceive(s: Slot, side: Side): Slot {
    var h := Get(s, side);
    Put(s, side, h.(sock := h.sock.(receiving := false, receiveCancelled := false)))
  }

  function FinishSend(s: Slot, side: Side): Slot {
    var h := Get(s, side);
    Put(s, side, h.(sock := h.sock.(sending := false, sendCancelled := false)))
  }

  /** `complete`, with the socket's own part of the completion done first. */
  function Step(s: Slot, e: Event): Slot
    requires Enabled(s, e)
  {
    match e
    case AcceptDone(accepted, init) =>
      var sock := s.server.sock.(accepting := false);
      if accepted then Accepted(s.(server := s.server.(sock := sock)), init)
      else
        var closed := sock.(life := if sock.life.handle then Close(sock.life) else sock.life);
        Accept(s.(server := s.server.(sock := closed), refused := s.refused + 1), init)
    case ConnectDone(connected) =>
      var sock := s.client.sock.(connecting := false);
      if connected then Connected(s.(client := s.client.(sock := sock)))
      else
        var closed := sock.(life := if sock.life.handle then Close(sock.life) else sock.life);
        CloseServer(s.(client := s.client.(sock := closed)), true)
    case ReceiveDone(side, result) =>
      var s' := FinishReceive(s, side);
      (match result
       case Ok(count) => Received(s', side, count)
       case Error => CloseConnections(s', true)
       case Aborted => s')
    case SendDone(side, result) =>
      var s' := FinishSend(s, side);
      (match result
       case Ok(count) => Sent(s', side, count)
       case Error => CloseConnections(s', true)
       case Aborted => s')
    case DisconnectDone(side, init) =>
      var h := Get(s, side);
      var sock := h.sock.(disconnecting := false, life := Close(h.sock.life));
      Disconnected(Put(s, side, h.(sock := sock)), init)
    case TimerFires => CloseConnections(s.(timerArmed := false), false)
    case OsFills(side, contents) => Put(s, side, Get(s, side).(recvbuf := contents))
  }

  /**
   What the environment may do: complete what is outstanding, transfer no more than was asked,
   abort only what was cancelled, never complete a cancelled operation with success, finish the
   disconnect of a socket after its other operations, fire an armed timer, and write anything
   into a buffer that has been handed to a receive.
   */
  predicate Enabled(s: Slot, e: Event) {
    match e
    case AcceptDone(accepted, _) =>
      s.server.sock.accepting && (accepted ==> s.server.sock.life.handle)
    case ConnectDone(connected) =>
      s.client.sock.connecting && (connected ==> s.client.sock.life.handle)
    case ReceiveDone(side, result) =>
      var sock := Get(s, side).sock;
      && sock.receiving
      && (match result
          case Ok(count) => count <= BUFFER_SIZE && !sock.receiveCancelled
          case Error => true
          case Aborted => sock.receiveCancelled)
    case SendDone(side, result) =>
      var sock := Get(s, side).sock;
      && sock.sending
      && (match result
          case Ok(count) => count <= Get(s, side).sendbuf.length && !sock.sendCancelled
          case Error => true
          case Aborted => sock.sendCancelled)
    case DisconnectDone(side, _) =>
      var sock := Get(s, side).sock;
      sock.disconnecting && !sock.receiving && !sock.sending
    case TimerFires => s.timerArmed
    case OsFills(side, contents) =>
      Get(s, side).sock.receiving && |contents| == BUFFER_SIZE
  }

  /**
   The hypothesis the close protocol relies on: the timer, armed for the connect, does not close
   the server half while that connect is still outstanding.
   */
  predicate Timely(s: Slot, e: Event) {
    e.TimerFires? ==> !s.client.sock.connecting
  }

  // Runs.

  ghost predicate Possible(s: Slot, es: seq<Event>)
    decreases |es|
  {
    es == [] || (Enabled(s, es[0]) && Possible(Step(s, es[0]), es[1..]))
  }

  ghost function Run(s: Slot, es: seq<Event>): Slot
    requires Possible(s, es)
    decreases |es|
  {
    if es == [] then s else Run(Step(s, es[0]), es[1..])
  }

  /** A possible run in which every timer firing is timely. */
  ghost predicate TimelyRun(s: Slot, es: seq<Event>)
    decreases |es|
  {
    es == [] || (Enabled(s, es[0]) && Timely(s, es[0]) && TimelyRun(Step(s, es[0]), es[1..]))
  }

  const QUIET := Sock(UNUSED, false, false, false, false, false, false, false)

  /** A slot just constructed, its first accept issued; the buffers hold whatever was in memory. */
  function Initial(serverBuffer: seq<byte>, clientBuffer: seq<byte>, init: Init): Slot {
    var server := Half(QUIET, false, serverBuffer, View(0, 0), [], [], false);
    var client := Half(QUIET, false, clientBuffer, View(0, 0), [], [], false);
    Accept(Slot(server, client, 0, false, 0, 0, 0), init)
  }
}
