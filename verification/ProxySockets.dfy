/**
 The proxy on its asynchronous sockets. A slot uses three: the acceptor's listener, the server half's
 and the client half's. Every step of a timely run makes only calls that the sockets allow, so all that
 is proved of the sockets holds of the proxy's.
 */
module ProxySockets {
  import opened Basics
  import opened SocketLifetime
  import P = ProxySpec
  import R = ProxyRuns
  import A = AsyncSocketSpec
  import W = AsyncSocketRuns

  const LISTENER: nat := 0

  function Index(side: P.Side): nat {
    if side.Server? then 1 else 2
  }

  /** The two halves' sockets, as the slot sees them. */
  datatype Pair = Pair(server: P.Sock, client: P.Sock)

  function PairOf(s: P.Slot): Pair {
    Pair(s.server.sock, s.client.sock)
  }

  function Of(p: Pair, side: P.Side): P.Sock {
    if side.Server? then p.server else p.client
  }

  function Put(p: Pair, side: P.Side, sock: P.Sock): Pair {
    if side.Server? then p.(server := sock) else p.(client := sock)
  }

  /**
   What the slot takes to be outstanding on a structure. An accept or connect whose socket could not be
   created was answered on the spot: the slot still has to hear of it, the thread pool does not.
   */
  predicate Up(sock: P.Sock, ov: A.Overlapped) {
    match ov
    case Main => (sock.accepting || sock.connecting) && sock.life.handle
    case ReceiveOv => sock.receiving
    case SendOv => sock.sending
    case DisconnectOv => sock.disconnecting
  }

  predicate Agrees(sock: P.Sock, w: W.World, i: nat)
    requires i < |w.socks|
  {
    w.socks[i].life == sock.life && forall ov :: W.Key(i, ov) in w.queued <==> Up(sock, ov)
  }

  /** The same sockets in both views: handles, I/O objects, and operations outstanding. */
  predicate Mirrors(p: Pair, w: W.World) {
    && |w.socks| == 3 && w.socks[LISTENER].life.io
    && Agrees(p.server, w, 1) && Agrees(p.client, w, 2)
    && (Up(p.server, A.Main) ==> w.socks[1].mainOp.Accept?)
    && (Up(p.client, A.Main) ==> w.socks[2].mainOp.Connect?)
  }

  /** Nothing but socket i changes its life, its stored operation or its structures. */
  ghost predicate Elsewhere(w: W.World, w': W.World, i: nat) {
    && |w'.socks| == |w.socks|
    && (forall j :: 0 <= j < |w.socks| && j != i ==>
          w'.socks[j].life == w.socks[j].life && w'.socks[j].mainOp == w.socks[j].mainOp)
    && (forall k: W.Key :: k in w.queued || k in w'.queued ==> k.owner == i || (k in w.queued && k in w'.queued))
  }

  lemma OneSideChanges(p: Pair, side: P.Side, sock: P.Sock, w: W.World, w': W.World)
    requires Mirrors(p, w) && Elsewhere(w, w', Index(side)) && Agrees(sock, w', Index(side))
    requires Up(sock, A.Main) ==> w'.socks[Index(side)].mainOp == (if side.Server? then A.Accept else A.Connect)
    ensures Mirrors(Put(p, side, sock), w')
  {
  }

  // The calls, one at a time.

  function TransferCall(side: P.Side, op: A.Op): W.Event {
    W.CallTransfer(Index(side), op, A.Pends)
  }

  function DisconnectCall(side: P.Side): W.Event {
    W.CallDisconnect(Index(side), A.Pends)
  }

  function AcceptCall(init: Init): W.Event {
    W.CallAccept(LISTENER, Index(P.Server), init, A.Pends, true)
  }

  function ConnectCall(init: Init): W.Event {
    W.CallConnect(Index(P.Client), init, true, A.Pends, true)
  }

  function Done(side: P.Side, ov: A.Overlapped, success: bool): W.Event {
    W.Completion(W.Key(Index(side), ov), success, true)
  }

  predicate Allowed(w: W.World, e: W.Event) {
    W.Enabled(w, e) && W.Fresh(w, e)
  }

  /** A transfer or disconnect left pending takes its structure and leaves the handles alone. */
  lemma CallQueues(w: W.World, e: W.Event, ov: A.Overlapped)
    requires W.Enabled(w, e) && (e.CallTransfer? || e.CallDisconnect?) && e.outcome.Pends?
    requires ov == if e.CallTransfer? then A.OverlappedOf(e.op) else A.DisconnectOv
    ensures var w' := W.Step(w, e);
            && w'.queued.Keys == w.queued.Keys + {W.Key(e.owner, ov)} && |w'.socks| == |w.socks|
            && forall j :: 0 <= j < |w.socks| ==>
                 w'.socks[j].life == w.socks[j].life && w'.socks[j].mainOp == w.socks[j].mainOp
  {
  }

  /** Taking one more structure, and nothing else. */
  lemma OneMoreUp(p: Pair, side: P.Side, sock: P.Sock, ov: A.Overlapped, w: W.World, w': W.World)
    requires Mirrors(p, w) && |w'.socks| == |w.socks| && !ov.Main?
    requires w'.queued.Keys == w.queued.Keys + {W.Key(Index(side), ov)}
    requires forall j :: 0 <= j < |w.socks| ==>
               w'.socks[j].life == w.socks[j].life && w'.socks[j].mainOp == w.socks[j].mainOp
    requires sock.life == Of(p, side).life
    requires forall o :: Up(sock, o) == (Up(Of(p, side), o) || o == ov)
    ensures Mirrors(Put(p, side, sock), w')
  {
    assert forall k: W.Key :: k in w'.queued <==> k in w'.queued.Keys;
    assert Agrees(Of(p, side), w, Index(side));
    OneSideChanges(p, side, sock, w, w');
  }

  lemma ReceiveIsAllowed(p: Pair, side: P.Side, w: W.World)
    requires Mirrors(p, w) && Of(p, side).life.io && !Of(p, side).receiving
    ensures Allowed(w, TransferCall(side, A.Receive))
    ensures Mirrors(Put(p, side, Of(p, side).(receiving := true, receiveCancelled := false)),
                    W.Step(w, TransferCall(side, A.Receive)))
  {
    var sock, e := Of(p, side).(receiving := true, receiveCancelled := false), TransferCall(side, A.Receive);
    CallQueues(w, e, A.ReceiveOv);
    OneMoreUp(p, side, sock, A.ReceiveOv, w, W.Step(w, e));
  }

  lemma SendIsAllowed(p: Pair, side: P.Side, w: W.World)
    requires Mirrors(p, w) && Of(p, side).life.io && !Of(p, side).sending
    ensures Allowed(w, TransferCall(side, A.Send))
    ensures Mirrors(Put(p, side, Of(p, side).(sending := true, sendCancelled := false)),
                    W.Step(w, TransferCall(side, A.Send)))
  {
    var sock, e := Of(p, side).(sending := true, sendCancelled := false), TransferCall(side, A.Send);
    CallQueues(w, e, A.SendOv);
    OneMoreUp(p, side, sock, A.SendOv, w, W.Step(w, e));
  }

  /** The two cancels come with the disconnect, and find what the slot takes to be outstanding. */
  lemma DisconnectIsAllowed(p: Pair, side: P.Side, w: W.World)
    requires Mirrors(p, w) && Of(p, side).life.io && !Of(p, side).disconnecting
    ensures Allowed(w, DisconnectCall(side))
    ensures Mirrors(Put(p, side, Of(p, side).(receiveCancelled := Of(p, side).receiving,
                                              sendCancelled := Of(p, side).sending, disconnecting := true)),
                    W.Step(w, DisconnectCall(side)))
  {
    var sock := Of(p, side);
    var sock', e := sock.(receiveCancelled := sock.receiving, sendCancelled := sock.sending, disconnecting := true),
                    DisconnectCall(side);
    CallQueues(w, e, A.DisconnectOv);
    OneMoreUp(p, side, sock', A.DisconnectOv, w, W.Step(w, e));
  }

  lemma AcceptIsAllowed(p: Pair, init: Init, w: W.World)
    requires Mirrors(p, w) && !p.server.life.handle
    ensures Allowed(w, AcceptCall(init))
    ensures Mirrors(p.(server := p.server.(accepting := true, life := Initialize(p.server.life, init))),
                    W.Step(w, AcceptCall(init)))
  {
    var sock := p.server.(accepting := true, life := Initialize(p.server.life, init));
    OneSideChanges(p, P.Server, sock, w, W.Step(w, AcceptCall(init)));
  }

  lemma ConnectIsAllowed(p: Pair, init: Init, w: W.World)
    requires Mirrors(p, w) && !p.client.life.handle
    ensures Allowed(w, ConnectCall(init))
    ensures Mirrors(p.(client := p.client.(connecting := true, life := Initialize(p.client.life, init))),
                    W.Step(w, ConnectCall(init)))
  {
    var sock := p.client.(connecting := true, life := Initialize(p.client.life, init));
    OneSideChanges(p, P.Client, sock, w, W.Step(w, ConnectCall(init)));
  }

  /** What a completion does to the socket before the slot hears of it. */
  function Finished(sock: P.Sock, ov: A.Overlapped, success: bool): P.Sock {
    match ov
    case Main =>
      sock.(accepting := false, connecting := false, life := if success then sock.life else Close(sock.life))
    case ReceiveOv => sock.(receiving := false, receiveCancelled := false)
    case SendOv => sock.(sending := false, sendCancelled := false)
    case DisconnectOv => sock.(disconnecting := false, life := Close(sock.life))
  }

  lemma FinishedLife(s: A.Sock, ov: A.Overlapped, success: bool)
    ensures var (s', cb) := A.Finish(s, ov, success, true);
            && s'.mainOp == s.mainOp
            && s'.life == if ov.DisconnectOv? || (ov.Main? && !success) then Close(s.life) else s.life
  {
  }

  /** A completion frees its structure, and closes its socket where the source does. */
  lemma CompletionDequeues(w: W.World, e: W.Event)
    requires W.Enabled(w, e) && e.Completion? && e.contextUpdated
    ensures var w' := W.Step(w, e);
            var life := w.socks[e.key.owner].life;
            && w'.queued.Keys == w.queued.Keys - {e.key} && |w'.socks| == |w.socks|
            && (forall j :: 0 <= j < |w.socks| ==> w'.socks[j].mainOp == w.socks[j].mainOp)
            && (forall j :: 0 <= j < |w.socks| && j != e.key.owner ==> w'.socks[j].life == w.socks[j].life)
            && w'.socks[e.key.owner].life
               == if e.key.ov.DisconnectOv? || (e.key.ov.Main? && !e.success) then Close(life) else life
  {
    FinishedLife(w.socks[e.key.owner], e.key.ov, e.success);
  }

  /** Freeing one structure; a closed socket has nothing else queued in its first one. */
  lemma OneLessUp(p: Pair, side: P.Side, sock: P.Sock, ov: A.Overlapped, w: W.World, w': W.World)
    requires Mirrors(p, w) && |w'.socks| == |w.socks|
    requires w'.queued.Keys == w.queued.Keys - {W.Key(Index(side), ov)}
    requires forall j :: 0 <= j < |w.socks| ==> w'.socks[j].mainOp == w.socks[j].mainOp
    requires forall j :: 0 <= j < |w.socks| && j != Index(side) ==> w'.socks[j].life == w.socks[j].life
    requires w'.socks[Index(side)].life == sock.life
    requires forall o :: Up(sock, o) == (Up(Of(p, side), o) && o != ov)
    ensures Mirrors(Put(p, side, sock), w')
  {
    assert forall k: W.Key :: k in w'.queued <==> k in w'.queued.Keys;
    assert Agrees(Of(p, side), w, Index(side));
    OneSideChanges(p, side, sock, w, w');
  }

  lemma CompletionIsAllowed(p: Pair, side: P.Side, ov: A.Overlapped, success: bool, w: W.World)
    requires Mirrors(p, w) && W.Inv(w) && Up(Of(p, side), ov)
    requires ov.DisconnectOv? ==> !Up(Of(p, side), A.Main)
    ensures Allowed(w, Done(side, ov, success))
    ensures Mirrors(Put(p, side, Finished(Of(p, side), ov, success)), W.Step(w, Done(side, ov, success)))
  {
    var e, sock := Done(side, ov, success), Finished(Of(p, side), ov, success);
    assert Agrees(Of(p, side), w, Index(side));
    assert e.key in w.queued && W.Ticketed(w.socks, w.queued, w.ops, e.key);
    CompletionDequeues(w, e);
    FinishedUps(Of(p, side), ov, success);
    OneLessUp(p, side, sock, ov, w, W.Step(w, e));
  }

  lemma FinishedUps(sock: P.Sock, ov: A.Overlapped, success: bool)
    requires ov.DisconnectOv? ==> !Up(sock, A.Main)
    ensures forall o :: Up(Finished(sock, ov, success), o) == (Up(sock, o) && o != ov)
  {
  }

  // The calls of one step.

  ghost predicate Backed(p: Pair, w: W.World) {
    Mirrors(p, w) && W.Inv(w)
  }

  /** These calls and completions are all allowed, and lead to sockets that mirror the pair. */
  ghost predicate Goes(w: W.World, es: seq<W.Event>, p: Pair) {
    W.Careful(w, es) && W.Possible(w, es) && Backed(p, W.Run(w, es))
  }

  lemma GoesNowhere(p: Pair, w: W.World)
    requires Backed(p, w)
    ensures Goes(w, [], p)
  {
  }

  lemma GoesOn(w: W.World, e: W.Event, es: seq<W.Event>, p: Pair)
    requires Allowed(w, e) && Goes(W.Step(w, e), es, p)
    ensures Goes(w, [e] + es, p)
  {
    W.CarefulStep(w, e, es);
  }

  lemma GoesOnce(w: W.World, e: W.Event, p: Pair)
    requires Allowed(w, e) && W.Inv(w) && Mirrors(p, W.Step(w, e))
    ensures Goes(w, [e], p)
  {
    W.StepKeepsInv(w, e);
    GoesNowhere(p, W.Step(w, e));
    GoesOn(w, e, [], p);
    assert [e] + [] == [e];
  }

  lemma GoesJoin(w: W.World, es: seq<W.Event>, fs: seq<W.Event>, p: Pair)
    requires W.Careful(w, es) && W.Possible(w, es) && Goes(W.Run(w, es), fs, p)
    ensures Goes(w, es + fs, p)
  {
    W.CarefulJoin(w, es, fs);
  }

  /** What the slot records besides is nothing to the sockets. */
  lemma SameUps(p: Pair, p': Pair, w: W.World)
    requires Backed(p, w)
    requires p'.server.life == p.server.life && p'.client.life == p.client.life
    requires forall ov :: Up(p'.server, ov) == Up(p.server, ov) && Up(p'.client, ov) == Up(p.client, ov)
    ensures Backed(p', w)
  {
    assert Agrees(p'.server, w, 1) && Agrees(p'.client, w, 2);
  }

  function ClientCloses(s: P.Slot): seq<W.Event> {
    if s.client.open then [DisconnectCall(P.Client)] else []
  }

  function ServerCloses(s: P.Slot): seq<W.Event> {
    if s.server.open then [DisconnectCall(P.Server)] else []
  }

  /** An open half can be disconnected. */
  predicate Closable(h: P.Half) {
    h.open ==> h.sock.life.io && !h.sock.disconnecting
  }

  lemma ServerCloseGoes(s: P.Slot, cancelTimer: bool, w: W.World)
    requires Backed(PairOf(s), w) && Closable(s.server)
    ensures Goes(w, ServerCloses(s), PairOf(P.CloseServer(s, cancelTimer)))
  {
    if s.server.open {
      DisconnectIsAllowed(PairOf(s), P.Server, w);
      GoesOnce(w, DisconnectCall(P.Server), PairOf(P.CloseServer(s, cancelTimer)));
    } else {
      GoesNowhere(PairOf(s), w);
    }
  }

  lemma ClientCloseGoes(s: P.Slot, w: W.World)
    requires Backed(PairOf(s), w) && Closable(s.client)
    ensures Goes(w, ClientCloses(s), PairOf(P.CloseClient(s)))
  {
    if s.client.open {
      DisconnectIsAllowed(PairOf(s), P.Client, w);
      GoesOnce(w, DisconnectCall(P.Client), PairOf(P.CloseClient(s)));
    } else {
      GoesNowhere(PairOf(s), w);
    }
  }

  lemma CloseGoes(s: P.Slot, cancelTimer: bool, w: W.World)
    requires Backed(PairOf(s), w) && Closable(s.server) && Closable(s.client)
    ensures Goes(w, ClientCloses(s) + ServerCloses(s), PairOf(P.CloseConnections(s, cancelTimer)))
  {
    ClientCloseGoes(s, w);
    ServerCloseGoes(P.CloseClient(s), cancelTimer, W.Run(w, ClientCloses(s)));
    GoesJoin(w, ClientCloses(s), ServerCloses(s), PairOf(P.CloseConnections(s, cancelTimer)));
  }

  /** The completion and the calls that a step of the slot makes on the sockets, in their order. */
  function Calls(s: P.Slot, e: P.Event): seq<W.Event> {
    match e
    case AcceptDone(accepted, init) =>
      (if s.server.sock.life.handle then [Done(P.Server, A.Main, accepted)] else [])
      + [if accepted then ConnectCall(init) else AcceptCall(init)]
    case ConnectDone(connected) =>
      (if s.client.sock.life.handle then [Done(P.Client, A.Main, connected)] else [])
      + (if connected then [TransferCall(P.Server, A.Receive), TransferCall(P.Client, A.Receive)] else ServerCloses(s))
    case ReceiveDone(side, result) =>
      [Done(side, A.ReceiveOv, result.Ok?)]
      + (if result.Aborted? then []
         else if result.Ok? && result.count > 0 then [TransferCall(P.Other(side), A.Send)]
         else ClientCloses(s) + ServerCloses(s))
    case SendDone(side, result) =>
      [Done(side, A.SendOv, result.Ok?)]
      + (if result.Aborted? then []
         else if result.Error? then ClientCloses(s) + ServerCloses(s)
         else if result.count == P.Get(s, side).sendbuf.length then [TransferCall(P.Other(side), A.Receive)]
         else [TransferCall(side, A.Send)])
    case DisconnectDone(side, init) =>
      [Done(side, A.DisconnectOv, true)] + (if Decrement(s.nconnections) == 0 then [AcceptCall(init)] else [])
    case TimerFires => ClientCloses(s) + ServerCloses(s)
    case OsFills(_, _) => []
  }

  lemma AcceptDoneGoes(s: P.Slot, accepted: bool, init: Init, w: W.World)
    requires R.Waiting(s) && P.Enabled(s, P.AcceptDone(accepted, init)) && Backed(PairOf(s), w)
    ensures Goes(w, Calls(s, P.AcceptDone(accepted, init)), PairOf(P.Step(s, P.AcceptDone(accepted, init))))
  {
    var p, next := PairOf(s), PairOf(P.Step(s, P.AcceptDone(accepted, init)));
    if s.server.sock.life.handle {
      var e := Done(P.Server, A.Main, accepted);
      CompletionIsAllowed(p, P.Server, A.Main, accepted, w);
      W.StepKeepsInv(w, e);
      AcceptedGoes(Put(p, P.Server, Finished(p.server, A.Main, accepted)), accepted, init, W.Step(w, e), next);
      GoesOn(w, e, [if accepted then ConnectCall(init) else AcceptCall(init)], next);
    } else {
      var p' := p.(server := p.server.(accepting := false));
      SameUps(p, p', w);
      AcceptedGoes(p', accepted, init, w, next);
      assert Calls(s, P.AcceptDone(accepted, init)) == [AcceptCall(init)];
    }
  }

  lemma AcceptedGoes(p: Pair, accepted: bool, init: Init, w: W.World, next: Pair)
    requires Backed(p, w) && !p.client.life.handle && (!accepted ==> !p.server.life.handle)
    requires next == if accepted
                     then p.(client := p.client.(connecting := true, life := Initialize(p.client.life, init)))
                     else p.(server := p.server.(accepting := true, life := Initialize(p.server.life, init)))
    ensures Goes(w, [if accepted then ConnectCall(init) else AcceptCall(init)], next)
  {
    if accepted {
      ConnectIsAllowed(p, init, w);
      GoesOnce(w, ConnectCall(init), next);
    } else {
      AcceptIsAllowed(p, init, w);
      GoesOnce(w, AcceptCall(init), next);
    }
  }

  /** After a completion the calls of its handler, or of none. */
  lemma CompletionThen(p: Pair, side: P.Side, ov: A.Overlapped, success: bool, w: W.World)
    requires Backed(p, w) && Up(Of(p, side), ov) && (ov.DisconnectOv? ==> !Up(Of(p, side), A.Main))
    ensures Allowed(w, Done(side, ov, success))
    ensures Backed(Put(p, side, Finished(Of(p, side), ov, success)), W.Step(w, Done(side, ov, success)))
  {
    CompletionIsAllowed(p, side, ov, success, w);
    W.StepKeepsInv(w, Done(side, ov, success));
  }

  /** `connected`: both halves receive. */
  lemma ConnectedGoes(p: Pair, w: W.World, next: Pair)
    requires Backed(p, w) && p.server.life.io && p.client.life.io && !p.server.receiving && !p.client.receiving
    requires next == Pair(p.server.(receiving := true, receiveCancelled := false),
                          p.client.(receiving := true, receiveCancelled := false))
    ensures Goes(w, [TransferCall(P.Server, A.Receive), TransferCall(P.Client, A.Receive)], next)
  {
    var e, f := TransferCall(P.Server, A.Receive), TransferCall(P.Client, A.Receive);
    var p' := p.(server := p.server.(receiving := true, receiveCancelled := false));
    ReceiveIsAllowed(p, P.Server, w);
    W.StepKeepsInv(w, e);
    ReceiveIsAllowed(p', P.Client, W.Step(w, e));
    GoesOnce(W.Step(w, e), f, next);
    GoesOn(w, e, [f], next);
    assert [e] + [f] == [e, f];
  }

  lemma ConnectSucceedsGoes(s: P.Slot, w: W.World)
    requires R.Dialling(s) && s.client.sock.life.handle && Backed(PairOf(s), w)
    requires Sound(s.server.sock.life) && Sound(s.client.sock.life)
    ensures Goes(w, Calls(s, P.ConnectDone(true)), PairOf(P.Step(s, P.ConnectDone(true))))
  {
    var p, next := PairOf(s), PairOf(P.Step(s, P.ConnectDone(true)));
    var e := Done(P.Client, A.Main, true);
    CompletionThen(p, P.Client, A.Main, true, w);
    ConnectedGoes(Put(p, P.Client, Finished(p.client, A.Main, true)), W.Step(w, e), next);
    GoesOn(w, e, [TransferCall(P.Server, A.Receive), TransferCall(P.Client, A.Receive)], next);
  }

  lemma ConnectFailsGoes(s: P.Slot, w: W.World)
    requires R.Dialling(s) && Backed(PairOf(s), w)
    requires Sound(s.server.sock.life) && Sound(s.client.sock.life)
    ensures Goes(w, Calls(s, P.ConnectDone(false)), PairOf(P.Step(s, P.ConnectDone(false))))
  {
    var p, sock := PairOf(s), s.client.sock.(connecting := false);
    var closed := sock.(life := if sock.life.handle then Close(sock.life) else sock.life);
    var s' := s.(client := s.client.(sock := closed));
    if sock.life.handle {
      var e := Done(P.Client, A.Main, false);
      CompletionThen(p, P.Client, A.Main, false, w);
      assert PairOf(s') == Put(p, P.Client, Finished(p.client, A.Main, false));
      ServerCloseGoes(s', true, W.Step(w, e));
      GoesOn(w, e, ServerCloses(s), PairOf(P.CloseServer(s', true)));
    } else {
      SameUps(p, PairOf(s'), w);
      ServerCloseGoes(s', true, w);
      assert [] + ServerCloses(s) == ServerCloses(s);
    }
  }

  /** A slot that relays, or has closed both halves: what transfers complete on. */
  predicate Settled(s: P.Slot) {
    && Sound(s.server.sock.life) && Sound(s.client.sock.life)
    && ((R.Flowing(s.server) && R.Flowing(s.client)) || (!s.server.open && !s.client.open))
  }

  lemma FlowingCloses(s: P.Slot, cancelTimer: bool, w: W.World)
    requires Settled(s) && Backed(PairOf(s), w)
    ensures Goes(w, ClientCloses(s) + ServerCloses(s), PairOf(P.CloseConnections(s, cancelTimer)))
  {
    CloseGoes(s, cancelTimer, w);
  }

  /** A completion, and one call after it. */
  lemma OneCallAfter(w: W.World, e: W.Event, f: W.Event, p': Pair, next: Pair)
    requires Allowed(w, e) && Backed(p', W.Step(w, e))
    requires Allowed(W.Step(w, e), f) && Mirrors(next, W.Step(W.Step(w, e), f))
    ensures Goes(w, [e] + [f], next)
  {
    GoesOnce(W.Step(w, e), f, next);
    GoesOn(w, e, [f], next);
  }

  /** A completion, and no call after it. */
  lemma NoCallAfter(w: W.World, e: W.Event, next: Pair)
    requires Allowed(w, e) && Backed(next, W.Step(w, e))
    ensures Goes(w, [e] + [], next)
  {
    GoesNowhere(next, W.Step(w, e));
    GoesOn(w, e, [], next);
  }

  /** A completion after which both halves are closed, if they are not yet. */
  lemma CloseAfter(s: P.Slot, s': P.Slot, e: W.Event, w: W.World)
    requires ClientCloses(s) == ClientCloses(s') && ServerCloses(s) == ServerCloses(s') && Settled(s')
    requires Allowed(w, e) && Backed(PairOf(s'), W.Step(w, e))
    ensures Goes(w, [e] + (ClientCloses(s) + ServerCloses(s)), PairOf(P.CloseConnections(s', true)))
  {
    FlowingCloses(s', true, W.Step(w, e));
    GoesOn(w, e, ClientCloses(s) + ServerCloses(s), PairOf(P.CloseConnections(s', true)));
  }

  // A receive completes.

  lemma PairAfterReceive(s: P.Slot, side: P.Side)
    requires P.Get(s, side).sock.receiving
    ensures var s' := P.FinishReceive(s, side);
            && PairOf(s') == Put(PairOf(s), side, Finished(Of(PairOf(s), side), A.ReceiveOv, true))
            && Finished(Of(PairOf(s), side), A.ReceiveOv, true) == Finished(Of(PairOf(s), side), A.ReceiveOv, false)
            && ClientCloses(s) == ClientCloses(s') && ServerCloses(s) == ServerCloses(s')
            && (Settled(s) ==> Settled(s'))
  {
  }

  lemma PairAfterData(s: P.Slot, side: P.Side, count: nat)
    requires count > 0
    ensures PairOf(P.Received(s, side, count))
         == Put(PairOf(s), P.Other(side), Of(PairOf(s), P.Other(side)).(sending := true, sendCancelled := false))
  {
  }

  lemma ReceiveDoneGoes(s: P.Slot, side: P.Side, result: P.IoResult, w: W.World)
    requires Settled(s) && Backed(PairOf(s), w) && P.Enabled(s, P.ReceiveDone(side, result))
    requires result.Ok? && result.count > 0 ==> R.Flowing(P.Get(s, P.Other(side))) && !P.Get(s, P.Other(side)).sock.sending
    ensures Goes(w, Calls(s, P.ReceiveDone(side, result)), PairOf(P.Step(s, P.ReceiveDone(side, result))))
  {
    var e, s' := Done(side, A.ReceiveOv, result.Ok?), P.FinishReceive(s, side);
    CompletionThen(PairOf(s), side, A.ReceiveOv, result.Ok?, w);
    PairAfterReceive(s, side);
    ReceivedGoes(s, s', side, result, w, e);
  }

  lemma ReceivedGoes(s: P.Slot, s': P.Slot, side: P.Side, result: P.IoResult, w: W.World, e: W.Event)
    requires P.Enabled(s, P.ReceiveDone(side, result)) && s' == P.FinishReceive(s, side)
    requires ClientCloses(s) == ClientCloses(s') && ServerCloses(s) == ServerCloses(s') && Settled(s')
    requires e == Done(side, A.ReceiveOv, result.Ok?) && Allowed(w, e) && Backed(PairOf(s'), W.Step(w, e))
    requires result.Ok? && result.count > 0 ==>
               P.Get(s', P.Other(side)).sock.life.io && !P.Get(s', P.Other(side)).sock.sending
    ensures Goes(w, Calls(s, P.ReceiveDone(side, result)), PairOf(P.Step(s, P.ReceiveDone(side, result))))
  {
    if result.Aborted? {
      NoCallAfter(w, e, PairOf(s'));
    } else if result.Ok? && result.count > 0 {
      SendIsAllowed(PairOf(s'), P.Other(side), W.Step(w, e));
      PairAfterData(s', side, result.count);
      OneCallAfter(w, e, TransferCall(P.Other(side), A.Send), PairOf(s'), PairOf(P.Received(s', side, result.count)));
    } else {
      CloseAfter(s, s', e, w);
    }
  }

  // A send completes.

  lemma PairAfterSend(s: P.Slot, side: P.Side)
    requires P.Get(s, side).sock.sending
    ensures var s' := P.FinishSend(s, side);
            && PairOf(s') == Put(PairOf(s), side, Finished(Of(PairOf(s), side), A.SendOv, true))
            && Finished(Of(PairOf(s), side), A.SendOv, true) == Finished(Of(PairOf(s), side), A.SendOv, false)
            && ClientCloses(s) == ClientCloses(s') && ServerCloses(s) == ServerCloses(s')
            && P.Get(s', side).sendbuf == P.Get(s, side).sendbuf
            && (Settled(s) ==> Settled(s'))
  {
  }

  lemma PairAfterBytes(s: P.Slot, side: P.Side, count: nat)
    requires count <= P.Get(s, side).sendbuf.length
    ensures PairOf(P.Sent(s, side, count))
         == if count == P.Get(s, side).sendbuf.length
            then Put(PairOf(s), P.Other(side), Of(PairOf(s), P.Other(side)).(receiving := true, receiveCancelled := false))
            else Put(PairOf(s), side, Of(PairOf(s), side).(sending := true, sendCancelled := false))
  {
  }

  lemma SendDoneGoes(s: P.Slot, side: P.Side, result: P.IoResult, w: W.World)
    requires Settled(s) && Backed(PairOf(s), w) && P.Enabled(s, P.SendDone(side, result))
    requires result.Ok? ==> R.Flowing(P.Get(s, side)) && R.Flowing(P.Get(s, P.Other(side)))
                            && !P.Get(s, P.Other(side)).sock.receiving
    ensures Goes(w, Calls(s, P.SendDone(side, result)), PairOf(P.Step(s, P.SendDone(side, result))))
  {
    var e, s' := Done(side, A.SendOv, result.Ok?), P.FinishSend(s, side);
    CompletionThen(PairOf(s), side, A.SendOv, result.Ok?, w);
    PairAfterSend(s, side);
    if result.Ok? {
      BytesGo(s, s', side, result.count, w, e);
    } else if result.Aborted? {
      NoCallAfter(w, e, PairOf(s'));
    } else {
      CloseAfter(s, s', e, w);
    }
  }

  lemma BytesGo(s: P.Slot, s': P.Slot, side: P.Side, count: nat, w: W.World, e: W.Event)
    requires P.Enabled(s, P.SendDone(side, P.Ok(count))) && s' == P.FinishSend(s, side)
    requires P.Get(s', side).sendbuf == P.Get(s, side).sendbuf
    requires e == Done(side, A.SendOv, true) && Allowed(w, e) && Backed(PairOf(s'), W.Step(w, e))
    requires P.Get(s', side).sock.life.io && !P.Get(s', side).sock.sending
    requires P.Get(s', P.Other(side)).sock.life.io && !P.Get(s', P.Other(side)).sock.receiving
    ensures Goes(w, Calls(s, P.SendDone(side, P.Ok(count))), PairOf(P.Step(s, P.SendDone(side, P.Ok(count)))))
  {
    PairAfterBytes(s', side, count);
    var next := PairOf(P.Sent(s', side, count));
    if count == P.Get(s', side).sendbuf.length {
      ReceiveIsAllowed(PairOf(s'), P.Other(side), W.Step(w, e));
      OneCallAfter(w, e, TransferCall(P.Other(side), A.Receive), PairOf(s'), next);
    } else {
      SendIsAllowed(PairOf(s'), side, W.Step(w, e));
      OneCallAfter(w, e, TransferCall(side, A.Send), PairOf(s'), next);
    }
  }

  lemma DisconnectDoneGoes(s: P.Slot, side: P.Side, init: Init, w: W.World)
    requires R.Closing(s) && Backed(PairOf(s), w) && P.Enabled(s, P.DisconnectDone(side, init))
    ensures Goes(w, Calls(s, P.DisconnectDone(side, init)), PairOf(P.Step(s, P.DisconnectDone(side, init))))
  {
    var p, e, next := PairOf(s), Done(side, A.DisconnectOv, true), PairOf(P.Step(s, P.DisconnectDone(side, init)));
    CompletionThen(p, side, A.DisconnectOv, true, w);
    var p', w' := Put(p, side, Finished(Of(p, side), A.DisconnectOv, true)), W.Step(w, e);
    if Decrement(s.nconnections) == 0 {
      AcceptIsAllowed(p', init, w');
      GoesOnce(w', AcceptCall(init), next);
      GoesOn(w, e, [AcceptCall(init)], next);
    } else {
      GoesNowhere(next, w');
      GoesOn(w, e, [], next);
    }
  }

  lemma TransferMeets(s: P.Slot, e: P.Event)
    requires R.Inv(s) && P.Enabled(s, e) && (e.ReceiveDone? || e.SendDone?)
    ensures Settled(s)
    ensures e.result.Ok? && (e.SendDone? || e.result.count > 0) ==>
              R.Flowing(s.server) && R.Flowing(s.client)
    ensures e.ReceiveDone? && e.result.Ok? ==> !P.Get(s, P.Other(e.side)).sock.sending
    ensures e.SendDone? && e.result.Ok? ==> !P.Get(s, P.Other(e.side)).sock.receiving
  {
    assert R.Relaying(s) || R.Closing(s);
  }

  /**
   One step on real sockets: from sockets that mirror a slot in its invariant, the completion and every
   call of a timely step are allowed. No structure is used while it is queued, none is used without an
   I/O object, and no socket is created over a live one. The sockets mirror the slot again afterwards.
   */
  lemma StepIsAllowed(s: P.Slot, e: P.Event, w: W.World)
    requires R.Inv(s) && P.Enabled(s, e) && P.Timely(s, e) && Backed(PairOf(s), w)
    ensures Goes(w, Calls(s, e), PairOf(P.Step(s, e)))
  {
    match e
    case AcceptDone(accepted, init) => AcceptDoneGoes(s, accepted, init, w);
    case ConnectDone(connected) =>
      if connected { ConnectSucceedsGoes(s, w); } else { ConnectFailsGoes(s, w); }
    case ReceiveDone(side, result) =>
      TransferMeets(s, e);
      ReceiveDoneGoes(s, side, result, w);
    case SendDone(side, result) =>
      TransferMeets(s, e);
      SendDoneGoes(s, side, result, w);
    case DisconnectDone(side, init) => DisconnectDoneGoes(s, side, init, w);
    case TimerFires => TimerGoes(s, w);
    case OsFills(_, _) => GoesNowhere(PairOf(s), w);
  }

  lemma TimerGoes(s: P.Slot, w: W.World)
    requires R.Inv(s) && P.Enabled(s, P.TimerFires) && P.Timely(s, P.TimerFires) && Backed(PairOf(s), w)
    ensures Goes(w, Calls(s, P.TimerFires), PairOf(P.Step(s, P.TimerFires)))
  {
    assert R.Relaying(s);
    FlowingCloses(s.(timerArmed := false), false, w);
  }

  // Whole runs.

  ghost function RunCalls(s: P.Slot, es: seq<P.Event>): seq<W.Event>
    requires P.Possible(s, es)
    decreases |es|
  {
    if es == [] then [] else Calls(s, es[0]) + RunCalls(P.Step(s, es[0]), es[1..])
  }

  lemma {:induction false} RunIsAllowed(s: P.Slot, es: seq<P.Event>, w: W.World)
    requires R.Inv(s) && P.TimelyRun(s, es) && P.Possible(s, es) && Backed(PairOf(s), w)
    ensures Goes(w, RunCalls(s, es), PairOf(P.Run(s, es)))
    decreases |es|
  {
    if es == [] {
      GoesNowhere(PairOf(s), w);
    } else {
      var t := P.Step(s, es[0]);
      StepIsAllowed(s, es[0], w);
      R.StepKeepsInv(s, es[0]);
      RunIsAllowed(t, es[1..], W.Run(w, Calls(s, es[0])));
      GoesJoin(w, Calls(s, es[0]), RunCalls(t, es[1..]), PairOf(P.Run(s, es)));
    }
  }

  /** The acceptor listens, and the slot issues its first accept. */
  function FirstCalls(init: Init): seq<W.Event> {
    [W.CallListen(LISTENER, Ready, true), AcceptCall(init)]
  }

  lemma ListenMirrors() returns (w: W.World)
    ensures W.Careful(W.Initial(3), [W.CallListen(LISTENER, Ready, true)])
    ensures W.Possible(W.Initial(3), [W.CallListen(LISTENER, Ready, true)])
    ensures w == W.Run(W.Initial(3), [W.CallListen(LISTENER, Ready, true)])
    ensures Backed(Pair(P.QUIET, P.QUIET), w)
  {
    var e := W.CallListen(LISTENER, Ready, true);
    W.InitialKeepsInv(3);
    w := W.Step(W.Initial(3), e);
    assert Agrees(P.QUIET, w, 1) && Agrees(P.QUIET, w, 2);
    GoesOnce(W.Initial(3), e, Pair(P.QUIET, P.QUIET));
    assert [e][1..] == [];
    assert W.Run(W.Initial(3), [e]) == W.Run(w, []);
  }

  lemma StartIsAllowed(s: P.Slot, init: Init)
    requires s == P.Initial(s.server.recvbuf, s.client.recvbuf, init)
    ensures Goes(W.Initial(3), FirstCalls(init), PairOf(s))
  {
    var listen := [W.CallListen(LISTENER, Ready, true)];
    var w := ListenMirrors();
    AcceptIsAllowed(Pair(P.QUIET, P.QUIET), init, w);
    GoesOnce(w, AcceptCall(init), PairOf(s));
    GoesJoin(W.Initial(3), listen, [AcceptCall(init)], PairOf(s));
    assert listen + [AcceptCall(init)] == FirstCalls(init);
  }

  /** From these sockets every new slot can be set up. */
  ghost predicate Launches(v: W.World) {
    forall s: P.Slot :: R.Starts(s) ==> exists calls :: Goes(v, calls, PairOf(s))
  }

  lemma NewSocketsLaunch()
    ensures Launches(W.Initial(3))
  {
    forall s: P.Slot | R.Starts(s) ensures exists calls :: Goes(W.Initial(3), calls, PairOf(s)) {
      var init :| s == P.Initial(s.server.recvbuf, s.client.recvbuf, init);
      StartIsAllowed(s, init);
    }
  }

  lemma GoesThenRuns(v: W.World, first: seq<W.Event>, s: P.Slot, es: seq<P.Event>)
    requires Goes(v, first, PairOf(s))
    requires R.Inv(s) && P.TimelyRun(s, es) && P.Possible(s, es)
    ensures Goes(v, first + RunCalls(s, es), PairOf(P.Run(s, es)))
  {
    RunIsAllowed(s, es, W.Run(v, first));
    GoesJoin(v, first, RunCalls(s, es), PairOf(P.Run(s, es)));
  }

  lemma ReachableCalls(v: W.World, t: P.Slot) returns (calls: seq<W.Event>)
    requires Launches(v) && R.Reachable(t)
    ensures Goes(v, calls, PairOf(t))
  {
    var s, es :| R.Starts(s) && P.TimelyRun(s, es) && P.Possible(s, es) && t == P.Run(s, es);
    var first :| Goes(v, first, PairOf(s));
    R.StartKeepsInv(s);
    GoesThenRuns(v, first, s, es);
    calls := first + RunCalls(s, es);
  }

  lemma AllowedIsReachable(n: nat, calls: seq<W.Event>, p: Pair)
    requires Goes(W.Initial(n), calls, p)
    ensures W.Reachable(W.Run(W.Initial(n), calls)) && W.AllSound(W.Run(W.Initial(n), calls).socks)
  {
    W.CarefulRun(W.Initial(n), calls);
  }

  /**
   The proxy never misuses its sockets: every reachable slot is mirrored by sockets that a run of allowed
   calls and completions leads to, all sound. From there StepIsAllowed goes on with any timely step. So
   the theorems about all runs of asynchronous sockets hold of the proxy's.
   */
  lemma SlotsRunOnSockets(t: P.Slot) returns (w: W.World)
    requires R.Reachable(t)
    ensures W.Reachable(w) && W.AllSound(w.socks) && Backed(PairOf(t), w)
  {
    NewSocketsLaunch();
    var calls := ReachableCalls(W.Initial(3), t);
    AllowedIsReachable(3, calls, PairOf(t));
    w := W.Run(W.Initial(3), calls);
  }

  /**
   The cancels that come with a disconnect reach exactly what the slot takes to be outstanding, on the
   handle it was started on.
   */
  lemma CancelsReach(t: P.Slot, side: P.Side, w: W.World)
    requires R.Reachable(t) && W.Reachable(w) && Mirrors(PairOf(t), w) && P.Get(t, side).open
    ensures var i, sock := Index(side), P.Get(t, side).sock;
            && (A.Cancels(w.socks[i], A.Receive) <==> sock.receiving)
            && (A.Cancels(w.socks[i], A.Send) <==> sock.sending)
            && (sock.receiving ==> w.queued[W.Key(i, A.ReceiveOv)].via == i)
            && (sock.sending ==> w.queued[W.Key(i, A.SendOv)].via == i)
  {
    R.SocketsNeverLeak(t, side);
    assert Agrees(P.Get(t, side).sock, w, Index(side));
    CancelReaches(w, Index(side), A.Receive);
    CancelReaches(w, Index(side), A.Send);
  }

  lemma CancelReaches(w: W.World, i: nat, op: A.Op)
    requires W.Reachable(w) && i < |w.socks| && w.socks[i].life.handle && (op.Receive? || op.Send?)
    ensures A.Cancels(w.socks[i], op) <==> W.Key(i, A.OverlappedOf(op)) in w.queued
    ensures W.Key(i, A.OverlappedOf(op)) in w.queued ==> w.queued[W.Key(i, A.OverlappedOf(op))].via == i
  {
    W.CancelFindsTheOperation(w, i, op);
    W.ReachableKeepsInv(w);
    TicketsOf(w, W.Key(i, A.OverlappedOf(op)));
  }

  /** A queued receive or send is reported through its own socket. */
  lemma TicketsOf(w: W.World, k: W.Key)
    requires W.Inv(w) && (k.ov.ReceiveOv? || k.ov.SendOv?)
    ensures k in w.queued ==> w.queued[k].via == k.owner
  {
    assert k in w.queued ==> W.Ticketed(w.socks, w.queued, w.ops, k);
  }
}
