/**
 `net::async::stream::socket` as an object. How the OS answers is a parameter of each call; the
 callback a call makes on the spot is its result.
 */
module AsyncSocket {
  import opened Basics
  import opened SocketLifetime
  import S = AsyncSocketSpec
  import W = AsyncSocketRuns

  class Socket {
    var life: Lifetime
    var mainOp: S.Op
    var mainPending: bool
    var receivePending: bool
    var sendPending: bool
    var disconnectPending: bool

    // The thread pool's tallies for this socket's I/O objects.
    ghost var started: nat
    ghost var cancelled: nat
    ghost var delivered: nat

    constructor ()
      ensures State() == S.FRESH
    {
      life, mainOp := UNUSED, S.Accept;
      mainPending, receivePending, sendPending, disconnectPending := false, false, false, false;
      started, cancelled, delivered := 0, 0, 0;
    }

    ghost function State(): S.Sock
      reads this
    {
      S.Sock(life, mainOp, mainPending, receivePending, sendPending, disconnectPending,
             started, cancelled, delivered)
    }

    method Init(init: Init) returns (error: bool)
      modifies `life
      ensures life == Initialize(old(life), init) && (error <==> !init.Ready?)
    {
      error := !init.Ready?;
      match init
      case Ready =>
        life := life.(handle := true, created := life.created + 1);
        life := life.(io := true);
      case NoSocket =>
        life := life.(handle := false);
      case NoModes =>
        life := life.(handle := true, created := life.created + 1);
        life := life.(handle := false, closed := life.closed + 1);
      case NoIo =>
        life := life.(handle := true, io := false, created := life.created + 1);
        life := life.(handle := false, closed := life.closed + 1);
    }

    method Close()
      modifies `life
      ensures life == SocketLifetime.Close(old(life))
    {
      life := life.(io := false);
      life := life.(handle := false, closed := life.closed + Ind(life.handle));
    }

    /** Socket options, bind and listen succeed together or not at all. */
    method Listen(init: Init, listens: bool) returns (ok: bool)
      modifies `life
      ensures State() == S.ListenOn(old(State()), init, listens)
      ensures ok <==> init.Ready? && listens
    {
      var error := Init(init);
      if !error {
        if listens {
          return true;
        }
        Close();
      }
      ok := false;
    }

    /** Called on the listener; the notification is the listener's, the rest the target's. */
    method Accept(target: Socket, init: Init, outcome: S.Outcome, contextUpdated: bool)
      returns (cb: Option<S.Callback>)
      requires target != this
      modifies this, target
      ensures State() == S.AcceptListener(old(State()), init, outcome)
      ensures (target.State(), cb) == S.AcceptTarget(old(target.State()), init, outcome, contextUpdated)
    {
      var error := target.Init(init);
      if error {
        return Some(S.Callback(S.Accept, false));
      }
      target.mainOp := S.Accept;
      started := started + 1;
      match outcome
      case Completes =>
        cancelled := cancelled + 1;
        if !contextUpdated {
          target.Close();
        }
        cb := Some(S.Callback(S.Accept, contextUpdated));
      case Pends =>
        target.mainPending := true;
        cb := None;
      case Fails =>
        cancelled := cancelled + 1;
        target.Close();
        cb := Some(S.Callback(S.Accept, false));
    }

    method Connect(init: Init, bound: bool, outcome: S.Outcome, contextUpdated: bool)
      returns (cb: Option<S.Callback>)
      modifies this
      ensures (State(), cb) == S.ConnectTo(old(State()), init, bound, outcome, contextUpdated)
    {
      var error := Init(init);
      if error {
        return Some(S.Callback(S.Connect, false));
      }
      if !bound {
        Close();
        return Some(S.Callback(S.Connect, false));
      }
      mainOp := S.Connect;
      started := started + 1;
      match outcome
      case Completes =>
        cancelled := cancelled + 1;
        if !contextUpdated {
          Close();
        }
        cb := Some(S.Callback(S.Connect, contextUpdated));
      case Pends =>
        mainPending := true;
        cb := None;
      case Fails =>
        cancelled := cancelled + 1;
        Close();
        cb := Some(S.Callback(S.Connect, false));
    }

    method Receive(outcome: S.Outcome) returns (cb: Option<S.Callback>)
      modifies this
      ensures (State(), cb) == S.Transfer(old(State()), S.Receive, outcome)
    {
      started := started + 1;
      if outcome.Pends? {
        receivePending := true;
        cb := None;
      } else {
        cancelled := cancelled + 1;
        cb := Some(S.Callback(S.Receive, outcome.Completes?));
      }
    }

    method Send(outcome: S.Outcome) returns (cb: Option<S.Callback>)
      modifies this
      ensures (State(), cb) == S.Transfer(old(State()), S.Send, outcome)
    {
      started := started + 1;
      if outcome.Pends? {
        sendPending := true;
        cb := None;
      } else {
        cancelled := cancelled + 1;
        cb := Some(S.Callback(S.Send, outcome.Completes?));
      }
    }

    method Disconnect(outcome: S.Outcome) returns (cb: Option<S.Callback>)
      modifies this
      ensures (State(), cb) == S.Leave(old(State()), outcome)
    {
      started := started + 1;
      if outcome.Pends? {
        disconnectPending := true;
        cb := None;
      } else {
        cancelled := cancelled + 1;
        Close();
        cb := Some(S.Callback(S.Disconnect, outcome.Completes?));
      }
    }

    /** Whether CancelIoEx is called, for one operation. */
    method Cancel(op: S.Op) returns (reaches: bool)
      ensures reaches <==> S.Cancels(State(), op)
    {
      if !life.handle {
        return false;
      }
      match op
      case Receive => reaches := receivePending;
      case Send => reaches := sendPending;
      case Disconnect => reaches := disconnectPending;
      case Accept => reaches := mainPending;
      case Connect => reaches := mainPending;
    }

    /** A completed receive or send. */
    method FinishTransfer(ov: S.Overlapped, success: bool) returns (cb: S.Callback)
      requires ov.ReceiveOv? || ov.SendOv?
      modifies `receivePending, `sendPending
      ensures (State(), cb) == S.Finish(old(State()), ov, success, false)
    {
      if ov.ReceiveOv? {
        receivePending := false;
        cb := S.Callback(S.Receive, success);
      } else {
        sendPending := false;
        cb := S.Callback(S.Send, success);
      }
    }

    /** A completed accept or connect. */
    method FinishMain(success: bool, contextUpdated: bool) returns (cb: S.Callback)
      modifies `life, `mainPending
      ensures (State(), cb) == S.Finish(old(State()), S.Main, success, contextUpdated)
    {
      var result := success && contextUpdated;
      if !result {
        Close();
      }
      mainPending := false;
      cb := S.Callback(mainOp, result);
    }

    method FinishDisconnect(success: bool) returns (cb: S.Callback)
      modifies `life, `disconnectPending
      ensures (State(), cb) == S.Finish(old(State()), S.DisconnectOv, success, false)
    {
      if life.io {
        life := life.(io := false);
      }
      if life.handle {
        life := life.(handle := false, closed := life.closed + 1);
      }
      disconnectPending := false;
      cb := S.Callback(S.Disconnect, success);
    }

    /** Called on the owner of the OVERLAPPED structure; the I/O object is that of `context`. */
    method IoCompletionCallback(context: Socket, ov: S.Overlapped, success: bool, contextUpdated: bool)
      returns (cb: S.Callback)
      modifies this, context`delivered
      ensures context.delivered == old(context.delivered) + 1
      ensures context != this ==> delivered == old(delivered)
      ensures (State().(delivered := old(delivered)), cb) == S.Finish(old(State()), ov, success, contextUpdated)
    {
      match ov {
        case Main => cb := FinishMain(success, contextUpdated);
        case DisconnectOv => cb := FinishDisconnect(success);
        case _ => cb := FinishTransfer(ov, success);
      }
      context.delivered := context.delivered + 1;
    }
  }

  // Any number of sockets.

  predicate Distinct(socks: seq<Socket>) {
    forall i, j :: 0 <= i < j < |socks| ==> socks[i] != socks[j]
  }

  ghost function States(socks: seq<Socket>): (ss: seq<S.Sock>)
    reads socks
    ensures |ss| == |socks| && forall i :: 0 <= i < |socks| ==> ss[i] == socks[i].State()
  {
    seq(|socks|, i requires 0 <= i < |socks| reads socks => socks[i].State())
  }

  /** A call on one socket; the callback it makes on the spot is the socket's. */
  method Call(socks: seq<Socket>, w: W.World, e: W.Event) returns (cb: Option<S.Callback>)
    requires Distinct(socks) && States(socks) == w.socks && W.Enabled(w, e)
    requires e.CallListen? || e.CallConnect? || e.CallTransfer? || e.CallDisconnect?
    modifies socks
    ensures States(socks) == W.Step(w, e).socks
  {
    var sock := socks[e.owner];
    match e {
      case CallListen(_, init, listens) =>
        var ok := sock.Listen(init, listens);
        cb := None;
      case CallConnect(_, init, bound, outcome, contextUpdated) =>
        cb := sock.Connect(init, bound, outcome, contextUpdated);
      case CallTransfer(_, op, outcome) =>
        if op.Receive? { cb := sock.Receive(outcome); } else { cb := sock.Send(outcome); }
      case CallDisconnect(_, outcome) => cb := sock.Disconnect(outcome);
    }
    assert forall i :: 0 <= i < |socks| && i != e.owner ==> socks[i] != sock && socks[i].State() == old(socks[i].State());
    assert sock.State() == W.Step(w, e).socks[e.owner];
  }

  method CallAccept(socks: seq<Socket>, w: W.World, e: W.Event) returns (cb: Option<S.Callback>)
    requires Distinct(socks) && States(socks) == w.socks && W.Enabled(w, e) && e.CallAccept?
    modifies socks
    ensures States(socks) == W.Step(w, e).socks
  {
    var listener, sock := socks[e.listener], socks[e.owner];
    assert listener != sock;
    cb := listener.Accept(sock, e.init, e.outcome, e.contextUpdated);
    assert forall i :: 0 <= i < |socks| && i != e.owner && i != e.listener ==>
             socks[i] != sock && socks[i] != listener && socks[i].State() == old(socks[i].State());
    assert sock.State() == W.Step(w, e).socks[e.owner] && listener.State() == W.Step(w, e).socks[e.listener];
  }

  lemma FinishKeepsDelivered(s: S.Sock, ov: S.Overlapped, success: bool, contextUpdated: bool)
    ensures S.Finish(s, ov, success, contextUpdated).0.delivered == s.delivered
  {
  }

  /** The thread pool reports a completion through the I/O object of another socket, or of the owner. */
  method Complete(socks: seq<Socket>, w: W.World, e: W.Event) returns (cb: S.Callback)
    requires Distinct(socks) && States(socks) == w.socks && W.Enabled(w, e) && e.Completion?
    modifies socks
    ensures States(socks) == W.Step(w, e).socks
  {
    var sock, context := socks[e.key.owner], socks[w.queued[e.key].via];
    assert context == sock <==> w.queued[e.key].via == e.key.owner;
    cb := sock.IoCompletionCallback(context, e.key.ov, e.success, e.contextUpdated);
    FinishKeepsDelivered(w.socks[e.key.owner], e.key.ov, e.success, e.contextUpdated);
    assert forall i :: 0 <= i < |socks| && i != e.key.owner && i != w.queued[e.key].via ==>
             socks[i] != sock && socks[i] != context && socks[i].State() == old(socks[i].State());
    assert context.State() == W.Step(w, e).socks[w.queued[e.key].via];
    assert sock.State() == W.Step(w, e).socks[e.key.owner];
  }

  /** Any number of sockets, any schedule of calls and completions. */
  method Drive(socks: seq<Socket>, w: W.World, es: seq<W.Event>) returns (w': W.World)
    requires Distinct(socks) && States(socks) == w.socks && W.Possible(w, es)
    modifies socks
    ensures w' == W.Run(w, es) && States(socks) == w'.socks
  {
    w' := w;
    for i := 0 to |es|
      invariant States(socks) == w'.socks && W.Possible(w', es[i..])
      invariant W.Run(w', es[i..]) == W.Run(w, es)
    {
      assert es[i..][0] == es[i] && es[i..][1..] == es[i + 1..];
      if es[i].CallAccept? {
        var cb := CallAccept(socks, w', es[i]);
      } else if es[i].Completion? {
        var cb := Complete(socks, w', es[i]);
      } else {
        var cb := Call(socks, w', es[i]);
      }
      w' := W.Step(w', es[i]);
    }
  }
}
