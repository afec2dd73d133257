/**
 The asynchronous socket at the granularity of its calls: what one call or one completion does to
 the object, and which callback, if any, it makes on the spot.
 */
module AsyncSocketSpec {
  import opened Basics
  import opened SocketLifetime

  datatype Op = Accept | Connect | Receive | Send | Disconnect

  /** What the OS answers to an overlapped call. */
  datatype Outcome = Completes | Pends | Fails

  /** The four OVERLAPPED structures; accept and connect share the first. */
  datatype Overlapped = Main | ReceiveOv | SendOv | DisconnectOv

  datatype Callback = Callback(op: Op, success: bool)

  /**
   The members of a socket, and the tallies of the notification calls on its I/O objects:
   StartThreadpoolIo, CancelThreadpoolIo, and queued completions delivered.
   */
  datatype Sock = Sock(
    life: Lifetime,
    mainOp: Op,
    mainPending: bool,
    receivePending: bool,
    sendPending: bool,
    disconnectPending: bool,
    started: nat,
    cancelled: nat,
    delivered: nat)

  const FRESH := Sock(UNUSED, Accept, false, false, false, false, 0, 0, 0)

  function OverlappedOf(op: Op): Overlapped {
    match op
    case Receive => ReceiveOv
    case Send => SendOv
    case Disconnect => DisconnectOv
    case _ => Main
  }

  function Pending(s: Sock, ov: Overlapped): bool {
    match ov
    case Main => s.mainPending
    case ReceiveOv => s.receivePending
    case SendOv => s.sendPending
    case DisconnectOv => s.disconnectPending
  }

  function SetPending(s: Sock, ov: Overlapped, pending: bool): Sock {
    match ov
    case Main => s.(mainPending := pending)
    case ReceiveOv => s.(receivePending := pending)
    case SendOv => s.(sendPending := pending)
    case DisconnectOv => s.(disconnectPending := pending)
  }

  /** The operation stored in an OVERLAPPED structure. */
  function StoredOp(s: Sock, ov: Overlapped): Op {
    match ov
    case Main => s.mainOp
    case ReceiveOv => Receive
    case SendOv => Send
    case DisconnectOv => Disconnect
  }

  function CloseSock(s: Sock): Sock {
    s.(life := Close(s.life))
  }

  /** The notification announced by a call, withdrawn unless the operation is left pending. */
  function Notify(s: Sock, outcome: Outcome): Sock {
    s.(started := s.started + 1, cancelled := s.cancelled + Ind(!outcome.Pends?))
  }

  /** `receive` and `send`. */
  function Transfer(s: Sock, op: Op, outcome: Outcome): (Sock, Option<Callback>) {
    var s' := Notify(s, outcome);
    if outcome.Pends? then (SetPending(s', OverlappedOf(op), true), None)
    else (s', Some(Callback(op, outcome.Completes?)))
  }

  /** `disconnect`: the socket is closed before the callback either way. */
  function Leave(s: Sock, outcome: Outcome): (Sock, Option<Callback>) {
    var s' := Notify(s, outcome);
    if outcome.Pends? then (s'.(disconnectPending := true), None)
    else (CloseSock(s'), Some(Callback(Disconnect, outcome.Completes?)))
  }

  /** The socket's side of `accept` and `connect` once the OS has been asked. */
  function Establish(s: Sock, op: Op, outcome: Outcome, contextUpdated: bool): (Sock, Option<Callback>) {
    var s' := s.(mainOp := op);
    if outcome.Pends? then (s'.(mainPending := true), None)
    else if outcome.Completes? && contextUpdated then (s', Some(Callback(op, true)))
    else (CloseSock(s'), Some(Callback(op, false)))
  }

  function ConnectTo(s: Sock, init: Init, bound: bool, outcome: Outcome, contextUpdated: bool)
    : (Sock, Option<Callback>)
  {
    var s' := s.(life := Initialize(s.life, init));
    if !init.Ready? then (s', Some(Callback(Connect, false)))
    else if !bound then (CloseSock(s'), Some(Callback(Connect, false)))
    else Establish(Notify(s', outcome), Connect, outcome, contextUpdated)
  }

  /** `listen`: no overlapped operation and no callback; a failure closes the socket again. */
  function ListenOn(s: Sock, init: Init, listens: bool): Sock {
    var s' := s.(life := Initialize(s.life, init));
    if init.Ready? && !listens then CloseSock(s') else s'
  }

  /** `accept` on the listener's object: the notification belongs to the listener. */
  function AcceptListener(listener: Sock, init: Init, outcome: Outcome): Sock {
    if init.Ready? then Notify(listener, outcome) else listener
  }

  function AcceptTarget(s: Sock, init: Init, outcome: Outcome, contextUpdated: bool)
    : (Sock, Option<Callback>)
  {
    var s' := s.(life := Initialize(s.life, init));
    if !init.Ready? then (s', Some(Callback(Accept, false)))
    else Establish(s', Accept, outcome, contextUpdated)
  }

  /** `io_completion_callback` on the socket that owns the OVERLAPPED structure. */
  function Finish(s: Sock, ov: Overlapped, success: bool, contextUpdated: bool): (Sock, Callback) {
    var op := StoredOp(s, ov);
    match ov
    case Main =>
      var ok := success && contextUpdated;
      ((if ok then s else CloseSock(s)).(mainPending := false), Callback(op, ok))
    case DisconnectOv => (CloseSock(s).(disconnectPending := false), Callback(op, success))
    case _ => (SetPending(s, ov, false), Callback(op, success))
  }

  /** `cancel(op)` calls CancelIoEx exactly then. */
  predicate Cancels(s: Sock, op: Op) {
    s.life.handle && Pending(s, OverlappedOf(op))
  }
}
