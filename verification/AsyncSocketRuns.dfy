/**
 Any number of sockets, any interleaving of their calls and completions: one callback for each
 operation, balanced notifications, and `io_pending` flags that tell the truth.
 */
module AsyncSocketRuns {
  import opened Basics
  import opened SocketLifetime
  import opened AsyncSocketSpec

  /** An OVERLAPPED structure of one socket. */
  datatype Key = Key(owner: nat, ov: Overlapped)

  /** A queued operation: its serial number, and the socket whose I/O object will report it. */
  datatype Ticket = Ticket(serial: nat, via: nat)

  /** `ops` lists every operation issued; `called` collects (serial, operation, success) of every callback. */
  datatype World = World(
    socks: seq<Sock>,
    queued: map<Key, Ticket>,
    ops: seq<Op>,
    called: multiset<(nat, Op, bool)>)

  datatype Event =
    | CallListen(owner: nat, init: Init, listens: bool)
    | CallAccept(listener: nat, owner: nat, init: Init, outcome: Outcome, contextUpdated: bool)
    | CallConnect(owner: nat, init: Init, bound: bool, outcome: Outcome, contextUpdated: bool)
    | CallTransfer(owner: nat, op: Op, outcome: Outcome)
    | CallDisconnect(owner: nat, outcome: Outcome)
    | Completion(key: Key, success: bool, contextUpdated: bool)

  /**
   What callers and OS are held to: an OVERLAPPED structure is not reused while it is queued, and an
   operation is started through an I/O object that exists.
   */
  predicate Enabled(w: World, e: Event) {
    match e
    case CallListen(owner, _, _) => owner < |w.socks|
    case CallAccept(listener, owner, _, _, _) =>
      && listener < |w.socks| && owner < |w.socks| && listener != owner
      && w.socks[listener].life.io && Key(owner, Main) !in w.queued
    case CallConnect(owner, _, _, _, _) => owner < |w.socks| && Key(owner, Main) !in w.queued
    case CallTransfer(owner, op, _) =>
      && owner < |w.socks| && (op.Receive? || op.Send?) && w.socks[owner].life.io
      && Key(owner, OverlappedOf(op)) !in w.queued
    case CallDisconnect(owner, _) =>
      owner < |w.socks| && w.socks[owner].life.io && Key(owner, DisconnectOv) !in w.queued
    case Completion(key, _, _) => key in w.queued && key.owner < |w.socks| && w.queued[key].via < |w.socks|
  }

  /** The sockets this call creates are created where there is none. */
  predicate Fresh(w: World, e: Event)
    requires Enabled(w, e)
  {
    match e
    case CallListen(owner, _, _) => !w.socks[owner].life.handle
    case CallAccept(_, owner, _, _, _) => !w.socks[owner].life.handle
    case CallConnect(owner, _, _, _, _) => !w.socks[owner].life.handle
    case _ => true
  }

  /** Book a call: the callback made on the spot, or else a ticket. */
  function Book(w: World, key: Key, via: nat, op: Op, cb: Option<Callback>): World {
    var serial := |w.ops|;
    var w' := w.(ops := w.ops + [op]);
    if cb.Some? then w'.(called := w.called + multiset{(serial, cb.value.op, cb.value.success)})
    else w'.(queued := w.queued[key := Ticket(serial, via)])
  }

  /** The thread pool has reported a completion through the I/O object of socket `via`. */
  function Deliver(socks: seq<Sock>, via: nat): seq<Sock>
    requires via < |socks|
  {
    socks[via := socks[via].(delivered := socks[via].delivered + 1)]
  }

  function Step(w: World, e: Event): World
    requires Enabled(w, e)
  {
    match e
    case CallListen(owner, init, listens) =>
      w.(socks := w.socks[owner := ListenOn(w.socks[owner], init, listens)])
    case CallAccept(listener, owner, init, outcome, contextUpdated) =>
      var (s, cb) := AcceptTarget(w.socks[owner], init, outcome, contextUpdated);
      var l := AcceptListener(w.socks[listener], init, outcome);
      Book(w.(socks := w.socks[owner := s][listener := l]), Key(owner, Main), listener, Accept, cb)
    case CallConnect(owner, init, bound, outcome, contextUpdated) =>
      var (s, cb) := ConnectTo(w.socks[owner], init, bound, outcome, contextUpdated);
      Book(w.(socks := w.socks[owner := s]), Key(owner, Main), owner, Connect, cb)
    case CallTransfer(owner, op, outcome) =>
      var (s, cb) := Transfer(w.socks[owner], op, outcome);
      Book(w.(socks := w.socks[owner := s]), Key(owner, OverlappedOf(op)), owner, op, cb)
    case CallDisconnect(owner, outcome) =>
      var (s, cb) := Leave(w.socks[owner], outcome);
      Book(w.(socks := w.socks[owner := s]), Key(owner, DisconnectOv), owner, Disconnect, cb)
    case Completion(key, success, contextUpdated) =>
      var ticket := w.queued[key];
      var (s, cb) := Finish(w.socks[key.owner], key.ov, success, contextUpdated);
      w.(socks := Deliver(w.socks[key.owner := s], ticket.via), queued := w.queued - {key},
         called := w.called + multiset{(ticket.serial, cb.op, cb.success)})
  }

  // The invariant.

  /** The operations outstanding on the I/O objects of socket i. */
  function Through(queued: map<Key, Ticket>, i: nat): set<Key> {
    set k | k in queued && queued[k].via == i
  }

  predicate Balanced(s: Sock, queued: map<Key, Ticket>, i: nat) {
    s.started == s.cancelled + s.delivered + |Through(queued, i)|
  }

  predicate Flagged(socks: seq<Sock>, queued: map<Key, Ticket>) {
    forall i, ov :: 0 <= i < |socks| ==> (Pending(socks[i], ov) <==> Key(i, ov) in queued)
  }

  /** The ticket of k is for the operation stored in its structure, on the I/O object that reports it. */
  predicate Ticketed(socks: seq<Sock>, queued: map<Key, Ticket>, ops: seq<Op>, k: Key)
    requires k in queued
  {
    && k.owner < |socks| && queued[k].via < |socks| && queued[k].serial < |ops|
    && ops[queued[k].serial] == StoredOp(socks[k.owner], k.ov)
    && (queued[k].via != k.owner <==> ops[queued[k].serial].Accept?)
  }

  predicate Tickets(socks: seq<Sock>, queued: map<Key, Ticket>, ops: seq<Op>) {
    forall k :: k in queued ==> Ticketed(socks, queued, ops, k)
  }

  /** Operation n is queued. */
  ghost predicate Waits(queued: map<Key, Ticket>, n: nat) {
    exists k :: k in queued && queued[k].serial == n
  }

  /** How often operation n has been called back under this name. */
  function Callbacks(called: multiset<(nat, Op, bool)>, n: nat, op: Op): nat {
    called[(n, op, true)] + called[(n, op, false)]
  }

  ghost predicate Once(w: World) {
    && (forall k, k' :: k in w.queued && k' in w.queued && w.queued[k].serial == w.queued[k'].serial ==> k == k')
    && (forall n: nat, op :: Callbacks(w.called, n, op)
          == Ind(n < |w.ops| && !Waits(w.queued, n) && op == w.ops[n]))
  }

  ghost predicate Inv(w: World) {
    && Flagged(w.socks, w.queued) && Tickets(w.socks, w.queued, w.ops) && Once(w)
    && (forall i :: 0 <= i < |w.socks| ==> Balanced(w.socks[i], w.queued, i))
  }

  // Booking.

  lemma ThroughGrows(queued: map<Key, Ticket>, key: Key, ticket: Ticket, i: nat)
    requires key !in queued
    ensures |Through(queued[key := ticket], i)| == |Through(queued, i)| + Ind(ticket.via == i)
  {
    if ticket.via == i {
      assert Through(queued[key := ticket], i) == Through(queued, i) + {key};
    } else {
      assert Through(queued[key := ticket], i) == Through(queued, i);
    }
  }

  lemma ThroughShrinks(queued: map<Key, Ticket>, key: Key, i: nat)
    requires key in queued
    ensures |Through(queued - {key}, i)| == |Through(queued, i)| - Ind(queued[key].via == i)
  {
    if queued[key].via == i {
      assert Through(queued - {key}, i) == Through(queued, i) - {key};
    } else {
      assert Through(queued - {key}, i) == Through(queued, i);
    }
  }

  /** Nothing waits under a serial number not yet given out. */
  lemma BookOnce(w: World, key: Key, via: nat, op: Op, cb: Option<Callback>)
    requires Once(w) && key !in w.queued
    requires forall k :: k in w.queued ==> w.queued[k].serial < |w.ops|
    requires cb.Some? ==> cb.value.op == op
    ensures Once(Book(w, key, via, op, cb))
  {
    var w' := Book(w, key, via, op, cb);
    forall n: nat, o ensures Callbacks(w'.called, n, o) == Ind(n < |w'.ops| && !Waits(w'.queued, n) && o == w'.ops[n]) {
      assert Callbacks(w.called, n, o) == Ind(n < |w.ops| && !Waits(w.queued, n) && o == w.ops[n]);
      if cb.None? {
        assert w'.queued[key].serial == |w.ops|;
        if Waits(w.queued, n) {
          var k :| k in w.queued && w.queued[k].serial == n;
          assert k in w'.queued && w'.queued[k].serial == n;
        }
      }
    }
  }

  lemma SettleOnce(w: World, key: Key, success: bool)
    requires Once(w) && key in w.queued
    requires w.queued[key].serial < |w.ops|
    ensures var n := w.queued[key].serial;
            Once(w.(queued := w.queued - {key}, called := w.called + multiset{(n, w.ops[n], success)}))
  {
    var m := w.queued[key].serial;
    var w' := w.(queued := w.queued - {key}, called := w.called + multiset{(m, w.ops[m], success)});
    forall n: nat, o ensures Callbacks(w'.called, n, o) == Ind(n < |w'.ops| && !Waits(w'.queued, n) && o == w'.ops[n]) {
      assert Callbacks(w.called, n, o) == Ind(n < |w.ops| && !Waits(w.queued, n) && o == w.ops[n]);
      if n == m {
        assert Waits(w.queued, n) && !Waits(w'.queued, n);
      } else if Waits(w.queued, n) {
        var k :| k in w.queued && w.queued[k].serial == n;
        assert k in w'.queued && w'.queued[k].serial == n;
      }
    }
  }

  // One step.

  /** What a call may do to socket i, given the callback it makes. */
  predicate Moved(s: Sock, s': Sock, i: nat, key: Key, via: nat, cb: Option<Callback>) {
    && s'.started + s.cancelled + s.delivered
       == s.started + s'.cancelled + s'.delivered + Ind(cb.None? && i == via)
    && (forall ov :: Pending(s', ov) == (Pending(s, ov) || (cb.None? && Key(i, ov) == key)))
  }

  predicate Booked(w: World, socks: seq<Sock>, key: Key, via: nat, op: Op, cb: Option<Callback>) {
    && |socks| == |w.socks| && key.owner < |socks| && via < |socks| && key !in w.queued
    && (via != key.owner <==> op.Accept?) && (cb.Some? ==> cb.value.op == op)
    && (cb.None? ==> StoredOp(socks[key.owner], key.ov) == op)
    && (forall i :: 0 <= i < |socks| ==> Moved(w.socks[i], socks[i], i, key, via, cb))
    && (forall k: Key :: k in w.queued && k.owner < |socks| ==>
          StoredOp(socks[k.owner], k.ov) == StoredOp(w.socks[k.owner], k.ov))
  }

  lemma BookedTickets(w: World, socks: seq<Sock>, key: Key, via: nat, op: Op, cb: Option<Callback>)
    requires Tickets(w.socks, w.queued, w.ops) && Booked(w, socks, key, via, op, cb)
    ensures var w' := Book(w.(socks := socks), key, via, op, cb); Tickets(w'.socks, w'.queued, w'.ops)
  {
    var w' := Book(w.(socks := socks), key, via, op, cb);
    forall k | k in w'.queued ensures Ticketed(w'.socks, w'.queued, w'.ops, k) {
      if k in w.queued {
        assert Ticketed(w.socks, w.queued, w.ops, k);
      }
    }
  }

  lemma BookedBalances(w: World, socks: seq<Sock>, key: Key, via: nat, op: Op, cb: Option<Callback>, i: nat)
    requires Booked(w, socks, key, via, op, cb) && i < |socks| && Balanced(w.socks[i], w.queued, i)
    ensures Balanced(socks[i], Book(w.(socks := socks), key, via, op, cb).queued, i)
  {
    assert Moved(w.socks[i], socks[i], i, key, via, cb);
    ThroughGrows(w.queued, key, Ticket(|w.ops|, via), i);
  }

  lemma BookedFlags(w: World, socks: seq<Sock>, key: Key, via: nat, op: Op, cb: Option<Callback>)
    requires Flagged(w.socks, w.queued) && Booked(w, socks, key, via, op, cb)
    ensures Flagged(socks, Book(w.(socks := socks), key, via, op, cb).queued)
  {
    forall i, ov | 0 <= i < |socks|
      ensures Pending(socks[i], ov) <==> Key(i, ov) in Book(w.(socks := socks), key, via, op, cb).queued
    {
      assert Moved(w.socks[i], socks[i], i, key, via, cb);
    }
  }

  lemma BookKeepsInv(w: World, socks: seq<Sock>, key: Key, via: nat, op: Op, cb: Option<Callback>)
    requires Inv(w) && Booked(w, socks, key, via, op, cb)
    ensures Inv(Book(w.(socks := socks), key, via, op, cb))
  {
    var w' := Book(w.(socks := socks), key, via, op, cb);
    BookedTickets(w, socks, key, via, op, cb);
    assert forall k :: k in w.queued ==> Ticketed(w.socks, w.queued, w.ops, k);
    BookOnce(w.(socks := socks), key, via, op, cb);
    BookedFlags(w, socks, key, via, op, cb);
    forall i | 0 <= i < |socks| ensures Balanced(socks[i], w'.queued, i) {
      BookedBalances(w, socks, key, via, op, cb, i);
    }
  }

  /** With nothing pending in the first structure, no ticket depends on the operation stored there. */
  lemma MainIsFree(w: World, owner: nat)
    requires Inv(w) && owner < |w.socks| && Key(owner, Main) !in w.queued
    ensures !w.socks[owner].mainPending
    ensures forall k :: k in w.queued && k.owner == owner ==> !k.ov.Main?
  {
    assert !Pending(w.socks[owner], Main);
  }

  /**
   What a call does to the object it is made on: one callback for that very operation or its flag
   raised, never both; and, where the notification is its own, balanced tallies.
   */
  predicate Effect(s: Sock, s': Sock, op: Op, cb: Option<Callback>, announced: bool) {
    && (cb.Some? ==> cb.value.op == op)
    && (cb.None? ==> StoredOp(s', OverlappedOf(op)) == op)
    && (forall ov :: Pending(s', ov) == (Pending(s, ov) || (cb.None? && ov == OverlappedOf(op))))
    && (forall ov :: ov != OverlappedOf(op) || !ov.Main? ==> StoredOp(s', ov) == StoredOp(s, ov))
    && s'.started + s.cancelled + s.delivered
       == s.started + s'.cancelled + s'.delivered + Ind(announced && cb.None?)
  }

  lemma TransferEffect(s: Sock, op: Op, outcome: Outcome)
    requires op.Receive? || op.Send?
    ensures var (s', cb) := Transfer(s, op, outcome); Effect(s, s', op, cb, true)
  {
  }

  lemma LeaveEffect(s: Sock, outcome: Outcome)
    ensures var (s', cb) := Leave(s, outcome); Effect(s, s', Disconnect, cb, true)
  {
  }

  lemma EstablishEffect(s: Sock, op: Op, outcome: Outcome, contextUpdated: bool)
    requires op.Accept? || op.Connect?
    ensures var (s', cb) := Establish(s, op, outcome, contextUpdated);
            Effect(s, s', op, cb, false) && (cb.None? <==> outcome.Pends?)
  {
  }

  lemma ConnectEffect(s: Sock, init: Init, bound: bool, outcome: Outcome, contextUpdated: bool)
    ensures var (s', cb) := ConnectTo(s, init, bound, outcome, contextUpdated);
            Effect(s, s', Connect, cb, true) && (cb.None? <==> init.Ready? && bound && outcome.Pends?)
  {
    EstablishEffect(Notify(s.(life := Initialize(s.life, init)), outcome), Connect, outcome, contextUpdated);
  }

  lemma AcceptEffect(s: Sock, init: Init, outcome: Outcome, contextUpdated: bool)
    ensures var (s', cb) := AcceptTarget(s, init, outcome, contextUpdated);
            Effect(s, s', Accept, cb, false) && (cb.None? <==> init.Ready? && outcome.Pends?)
  {
    EstablishEffect(s.(life := Initialize(s.life, init)), Accept, outcome, contextUpdated);
  }

  lemma OneSocketBooks(w: World, owner: nat, s: Sock, op: Op, cb: Option<Callback>)
    requires Inv(w) && owner < |w.socks| && !op.Accept?
    requires Effect(w.socks[owner], s, op, cb, true)
    requires Key(owner, OverlappedOf(op)) !in w.queued
    ensures Inv(Book(w.(socks := w.socks[owner := s]), Key(owner, OverlappedOf(op)), owner, op, cb))
  {
    if OverlappedOf(op).Main? { MainIsFree(w, owner); }
    BookKeepsInv(w, w.socks[owner := s], Key(owner, OverlappedOf(op)), owner, op, cb);
  }

  lemma TwoSocketsBook(w: World, owner: nat, s: Sock, listener: nat, l: Sock, cb: Option<Callback>)
    requires Inv(w) && owner < |w.socks| && listener < |w.socks| && listener != owner
    requires Effect(w.socks[owner], s, Accept, cb, false)
    requires l.life == w.socks[listener].life && l.mainOp == w.socks[listener].mainOp
    requires forall ov :: Pending(l, ov) == Pending(w.socks[listener], ov)
    requires l.delivered == w.socks[listener].delivered
    requires l.started + w.socks[listener].cancelled == w.socks[listener].started + l.cancelled + Ind(cb.None?)
    requires Key(owner, Main) !in w.queued
    ensures Inv(Book(w.(socks := w.socks[owner := s][listener := l]), Key(owner, Main), listener, Accept, cb))
  {
    MainIsFree(w, owner);
    var socks := w.socks[owner := s][listener := l];
    var key := Key(owner, Main);
    forall i | 0 <= i < |socks| ensures Moved(w.socks[i], socks[i], i, key, listener, cb) {
      if i == owner {
        assert socks[i] == s;
      } else if i == listener {
        assert socks[i] == l;
      }
    }
    BookKeepsInv(w, socks, Key(owner, Main), listener, Accept, cb);
  }

  /** What finishing an operation leaves of its socket, apart from the life of the handle. */
  predicate Finished(s: Sock, s': Sock, ov: Overlapped) {
    && s'.mainOp == s.mainOp
    && s'.started == s.started && s'.cancelled == s.cancelled && s'.delivered == s.delivered
    && forall o :: Pending(s', o) == (Pending(s, o) && o != ov)
  }

  lemma FinishedMain(s: Sock, success: bool, contextUpdated: bool)
    ensures var (s', cb) := Finish(s, Main, success, contextUpdated); Finished(s, s', Main) && cb.op == s.mainOp
  {
  }

  lemma FinishedDisconnect(s: Sock, success: bool, contextUpdated: bool)
    ensures var (s', cb) := Finish(s, DisconnectOv, success, contextUpdated);
            Finished(s, s', DisconnectOv) && cb.op == Disconnect
  {
  }

  lemma FinishedTransfer(s: Sock, ov: Overlapped, success: bool, contextUpdated: bool)
    requires ov.ReceiveOv? || ov.SendOv?
    ensures var (s', cb) := Finish(s, ov, success, contextUpdated); Finished(s, s', ov) && cb.op == StoredOp(s, ov)
  {
  }

  lemma FinishedSock(s: Sock, ov: Overlapped, success: bool, contextUpdated: bool)
    ensures var (s', cb) := Finish(s, ov, success, contextUpdated); Finished(s, s', ov) && cb.op == StoredOp(s, ov)
  {
    match ov
    case Main => FinishedMain(s, success, contextUpdated);
    case DisconnectOv => FinishedDisconnect(s, success, contextUpdated);
    case _ => FinishedTransfer(s, ov, success, contextUpdated);
  }

  /** What a completion reported through `via` does to socket i. */
  predicate Settled(s: Sock, s': Sock, i: nat, key: Key, via: nat) {
    && s'.mainOp == s.mainOp
    && s'.started == s.started && s'.cancelled == s.cancelled && s'.delivered == s.delivered + Ind(i == via)
    && (forall ov :: Pending(s', ov) == (Pending(s, ov) && Key(i, ov) != key))
  }

  predicate AllSettled(w: World, socks: seq<Sock>, key: Key, via: nat) {
    |socks| == |w.socks| && forall i :: 0 <= i < |socks| ==> Settled(w.socks[i], socks[i], i, key, via)
  }

  lemma SettledTickets(w: World, socks: seq<Sock>, key: Key, via: nat)
    requires Tickets(w.socks, w.queued, w.ops) && AllSettled(w, socks, key, via)
    ensures Tickets(socks, w.queued - {key}, w.ops)
  {
    forall k | k in w.queued - {key} ensures Ticketed(socks, w.queued - {key}, w.ops, k) {
      assert Ticketed(w.socks, w.queued, w.ops, k);
      assert Settled(w.socks[k.owner], socks[k.owner], k.owner, key, via);
    }
  }

  lemma SettledFlags(w: World, socks: seq<Sock>, key: Key, via: nat)
    requires Flagged(w.socks, w.queued) && AllSettled(w, socks, key, via)
    ensures Flagged(socks, w.queued - {key})
  {
    forall i, ov | 0 <= i < |socks| ensures Pending(socks[i], ov) <==> Key(i, ov) in w.queued - {key} {
      assert Settled(w.socks[i], socks[i], i, key, via);
    }
  }

  lemma SettleKeepsInv(w: World, socks: seq<Sock>, key: Key, success: bool)
    requires Inv(w) && key in w.queued && AllSettled(w, socks, key, w.queued[key].via)
    requires w.queued[key].serial < |w.ops|
    ensures var n := w.queued[key].serial;
            Inv(World(socks, w.queued - {key}, w.ops, w.called + multiset{(n, w.ops[n], success)}))
  {
    SettleOnce(w, key, success);
    SettledTickets(w, socks, key, w.queued[key].via);
    SettledFlags(w, socks, key, w.queued[key].via);
    forall i | 0 <= i < |socks| ensures Balanced(socks[i], w.queued - {key}, i) {
      assert Balanced(w.socks[i], w.queued, i);
      assert Settled(w.socks[i], socks[i], i, key, w.queued[key].via);
      ThroughShrinks(w.queued, key, i);
    }
  }

  lemma CompletionSettles(w: World, key: Key, via: nat, s: Sock)
    requires key.owner < |w.socks| && via < |w.socks| && Finished(w.socks[key.owner], s, key.ov)
    ensures AllSettled(w, Deliver(w.socks[key.owner := s], via), key, via)
  {
    var socks := Deliver(w.socks[key.owner := s], via);
    forall i | 0 <= i < |socks| ensures Settled(w.socks[i], socks[i], i, key, via) {
      forall ov ensures Pending(socks[i], ov) == (Pending(w.socks[i], ov) && Key(i, ov) != key) {
        assert Pending(socks[i], ov) == Pending(if i == key.owner then s else w.socks[i], ov);
      }
    }
  }

  lemma CompletionKeepsInv(w: World, e: Event)
    requires Inv(w) && e.Completion? && Enabled(w, e)
    ensures Inv(Step(w, e))
  {
    var key, via := e.key, w.queued[e.key].via;
    var (s, cb) := Finish(w.socks[key.owner], key.ov, e.success, e.contextUpdated);
    assert Ticketed(w.socks, w.queued, w.ops, key);
    FinishedSock(w.socks[key.owner], key.ov, e.success, e.contextUpdated);
    CompletionSettles(w, key, via, s);
    SettleKeepsInv(w, Deliver(w.socks[key.owner := s], via), key, cb.success);
  }

  lemma ListenKeepsInv(w: World, e: Event)
    requires Inv(w) && e.CallListen? && Enabled(w, e)
    ensures Inv(Step(w, e))
  {
    var s := ListenOn(w.socks[e.owner], e.init, e.listens);
    var socks := w.socks[e.owner := s];
    assert s == w.socks[e.owner].(life := s.life);
    forall i | 0 <= i < |socks| ensures Balanced(socks[i], w.queued, i) {
      assert Balanced(w.socks[i], w.queued, i);
    }
    forall k | k in w.queued ensures Ticketed(socks, w.queued, w.ops, k) {
      assert Ticketed(w.socks, w.queued, w.ops, k);
    }
    forall i, ov | 0 <= i < |socks| ensures Pending(socks[i], ov) <==> Key(i, ov) in w.queued {
      assert Pending(socks[i], ov) == Pending(w.socks[i], ov);
    }
  }

  lemma AcceptKeepsInv(w: World, e: Event)
    requires Inv(w) && e.CallAccept? && Enabled(w, e)
    ensures Inv(Step(w, e))
  {
    var CallAccept(listener, owner, init, outcome, contextUpdated) := e;
    var (s, cb) := AcceptTarget(w.socks[owner], init, outcome, contextUpdated);
    AcceptEffect(w.socks[owner], init, outcome, contextUpdated);
    TwoSocketsBook(w, owner, s, listener, AcceptListener(w.socks[listener], init, outcome), cb);
  }

  lemma ConnectKeepsInv(w: World, e: Event)
    requires Inv(w) && e.CallConnect? && Enabled(w, e)
    ensures Inv(Step(w, e))
  {
    var CallConnect(owner, init, bound, outcome, contextUpdated) := e;
    var (s, cb) := ConnectTo(w.socks[owner], init, bound, outcome, contextUpdated);
    ConnectEffect(w.socks[owner], init, bound, outcome, contextUpdated);
    OneSocketBooks(w, owner, s, Connect, cb);
  }

  lemma StepKeepsInv(w: World, e: Event)
    requires Inv(w) && Enabled(w, e)
    ensures Inv(Step(w, e))
  {
    match e
    case CallListen(_, _, _) => ListenKeepsInv(w, e);
    case CallAccept(_, _, _, _, _) => AcceptKeepsInv(w, e);
    case CallConnect(_, _, _, _, _) => ConnectKeepsInv(w, e);
    case CallTransfer(owner, op, outcome) =>
      var (s, cb) := Transfer(w.socks[owner], op, outcome);
      TransferEffect(w.socks[owner], op, outcome);
      OneSocketBooks(w, owner, s, op, cb);
    case CallDisconnect(owner, outcome) =>
      var (s, cb) := Leave(w.socks[owner], outcome);
      LeaveEffect(w.socks[owner], outcome);
      OneSocketBooks(w, owner, s, Disconnect, cb);
    case Completion(_, _, _) => CompletionKeepsInv(w, e);
  }

  // Runs.

  function Initial(n: nat): World {
    World(seq(n, _ => FRESH), map[], [], multiset{})
  }

  ghost predicate Possible(w: World, es: seq<Event>)
    decreases |es|
  {
    es == [] || (Enabled(w, es[0]) && Possible(Step(w, es[0]), es[1..]))
  }

  ghost function Run(w: World, es: seq<Event>): World
    requires Possible(w, es)
    decreases |es|
  {
    if es == [] then w else Run(Step(w, es[0]), es[1..])
  }

  lemma {:induction false} RunKeepsInv(w: World, es: seq<Event>)
    requires Inv(w) && Possible(w, es)
    ensures Inv(Run(w, es))
    decreases |es|
  {
    if es != [] {
      StepKeepsInv(w, es[0]);
      RunKeepsInv(Step(w, es[0]), es[1..]);
    }
  }

  /** A state that some interleaving over n new sockets leads to. */
  ghost predicate Reachable(w: World) {
    exists n, es :: Possible(Initial(n), es) && w == Run(Initial(n), es)
  }

  lemma InitialKeepsInv(n: nat)
    ensures Inv(Initial(n))
  {
    var w := Initial(n);
    forall i | 0 <= i < |w.socks| ensures Balanced(w.socks[i], w.queued, i) {
      assert Through(w.queued, i) == {};
    }
  }

  lemma ReachableKeepsInv(w: World)
    requires Reachable(w)
    ensures Inv(w)
  {
    var n, es :| Possible(Initial(n), es) && w == Run(Initial(n), es);
    InitialKeepsInv(n);
    RunKeepsInv(Initial(n), es);
  }

  /**
   Exactly one callback per operation, naming that operation: every operation issued has been
   called back once unless it is still queued, and nothing else has been called back.
   */
  lemma OneCallbackPerOperation(w: World, n: nat, op: Op)
    requires Reachable(w)
    ensures Callbacks(w.called, n, op) == Ind(n < |w.ops| && !Waits(w.queued, n) && op == w.ops[n])
    ensures forall k, k' :: k in w.queued && k' in w.queued && w.queued[k].serial == w.queued[k'].serial ==> k == k'
  {
    ReachableKeepsInv(w);
  }

  // What the callbacks say.

  /** A receive or send succeeds exactly when the OS says so. */
  lemma TransferTells(s: Sock, op: Op, outcome: Outcome)
    ensures var (s', cb) := Transfer(s, op, outcome);
            s'.life == s.life && (cb.Some? ==> (cb.value.success <==> outcome.Completes?))
  {
  }

  /** So does a disconnect, and the socket is closed either way. */
  lemma LeaveTells(s: Sock, outcome: Outcome)
    ensures var (s', cb) := Leave(s, outcome);
            cb.Some? ==> (cb.value.success <==> outcome.Completes?) && s'.life == Close(s.life)
  {
  }

  /** A connect that is called back on the spot has a live socket exactly when it reports success. */
  lemma ConnectTells(s: Sock, init: Init, bound: bool, outcome: Outcome, contextUpdated: bool)
    ensures var (s', cb) := ConnectTo(s, init, bound, outcome, contextUpdated);
            && (cb.Some? ==> (cb.value.success <==> s'.life.handle))
            && (cb.Some? ==> (cb.value.success <==> init.Ready? && bound && outcome.Completes? && contextUpdated))
            && (cb.None? ==> s'.life.handle && s'.life.io)
  {
  }

  /** So has an accept. */
  lemma AcceptTells(s: Sock, init: Init, outcome: Outcome, contextUpdated: bool)
    ensures var (s', cb) := AcceptTarget(s, init, outcome, contextUpdated);
            && (cb.Some? ==> (cb.value.success <==> s'.life.handle))
            && (cb.Some? ==> (cb.value.success <==> init.Ready? && outcome.Completes? && contextUpdated))
            && (cb.None? ==> s'.life.handle && s'.life.io)
  {
  }

  /** A completion reports what the OS says, and an accept or connect that fails is closed. */
  lemma FinishTells(s: Sock, ov: Overlapped, success: bool, contextUpdated: bool)
    ensures var (s', cb) := Finish(s, ov, success, contextUpdated);
            && (cb.success <==> success && (ov.Main? ==> contextUpdated))
            && s'.life == if ov.DisconnectOv? || (ov.Main? && !cb.success) then Close(s.life) else s.life
  {
  }

  /** A socket listens exactly when it keeps its handle. */
  lemma ListenTells(s: Sock, init: Init, listens: bool)
    ensures ListenOn(s, init, listens).life.handle <==> init.Ready? && listens
  {
  }

  /** Whether this event answers an operation, rather than leave it pending. */
  predicate Answers(e: Event) {
    match e
    case CallListen(_, _, _) => false
    case CallAccept(_, _, init, outcome, _) => !(init.Ready? && outcome.Pends?)
    case CallConnect(_, init, bound, outcome, _) => !(init.Ready? && bound && outcome.Pends?)
    case CallTransfer(_, _, outcome) => !outcome.Pends?
    case CallDisconnect(_, outcome) => !outcome.Pends?
    case Completion(_, _, _) => true
  }

  /** What the OS makes of the operation it answers. */
  predicate Verdict(e: Event) {
    match e
    case CallListen(_, init, listens) => init.Ready? && listens
    case CallAccept(_, _, init, outcome, contextUpdated) => init.Ready? && outcome.Completes? && contextUpdated
    case CallConnect(_, init, bound, outcome, contextUpdated) =>
      init.Ready? && bound && outcome.Completes? && contextUpdated
    case CallTransfer(_, _, outcome) => outcome.Completes?
    case CallDisconnect(_, outcome) => outcome.Completes?
    case Completion(key, success, contextUpdated) => success && (key.ov.Main? ==> contextUpdated)
  }

  /** The operation it answers: the one just called, or the one whose ticket comes back. */
  function Answered(w: World, e: Event): nat
    requires Enabled(w, e)
  {
    if e.Completion? then w.queued[e.key].serial else |w.ops|
  }

  /** One callback for each answer, for the operation answered and with the OS's verdict. */
  function Told(w: World, e: Event): multiset<(nat, Op, bool)>
    requires Enabled(w, e)
  {
    var n := Answered(w, e);
    if Answers(e) && n < |Step(w, e).ops| then multiset{(n, Step(w, e).ops[n], Verdict(e))} else multiset{}
  }

  /** The operation a call issues, by its own name. */
  predicate Issues(e: Event, op: Op) {
    match e
    case CallListen(_, _, _) => false
    case CallAccept(_, _, _, _, _) => op.Accept?
    case CallConnect(_, _, _, _, _) => op.Connect?
    case CallTransfer(_, o, _) => op == o
    case CallDisconnect(_, _) => op.Disconnect?
    case Completion(_, _, _) => false
  }

  lemma StepOps(w: World, e: Event)
    requires Enabled(w, e)
    ensures var ops := Step(w, e).ops;
            if e.CallListen? || e.Completion? then ops == w.ops
            else |ops| == |w.ops| + 1 && ops[..|w.ops|] == w.ops && Issues(e, ops[|w.ops|])
  {
  }

  lemma CallTells(w: World, e: Event)
    requires Enabled(w, e) && !e.Completion?
    ensures Step(w, e).called == w.called + Told(w, e)
  {
    match e
    case CallListen(_, _, _) =>
    case CallAccept(_, owner, init, outcome, contextUpdated) =>
      AcceptTells(w.socks[owner], init, outcome, contextUpdated);
      AcceptEffect(w.socks[owner], init, outcome, contextUpdated);
    case CallConnect(owner, init, bound, outcome, contextUpdated) =>
      ConnectTells(w.socks[owner], init, bound, outcome, contextUpdated);
      ConnectEffect(w.socks[owner], init, bound, outcome, contextUpdated);
    case CallTransfer(owner, op, outcome) => TransferTells(w.socks[owner], op, outcome);
    case CallDisconnect(owner, outcome) => LeaveTells(w.socks[owner], outcome);
  }

  lemma CompletionTells(w: World, e: Event)
    requires Inv(w) && Enabled(w, e) && e.Completion?
    ensures Step(w, e).called == w.called + Told(w, e)
  {
    assert Ticketed(w.socks, w.queued, w.ops, e.key);
    FinishTells(w.socks[e.key.owner], e.key.ov, e.success, e.contextUpdated);
    FinishedSock(w.socks[e.key.owner], e.key.ov, e.success, e.contextUpdated);
  }

  lemma StepTells(w: World, e: Event)
    requires Inv(w) && Enabled(w, e)
    ensures Step(w, e).called == w.called + Told(w, e)
  {
    if e.Completion? {
      CompletionTells(w, e);
    } else {
      CallTells(w, e);
    }
  }

  /** All that a run of events has to say. */
  ghost function AllTold(w: World, es: seq<Event>): multiset<(nat, Op, bool)>
    requires Possible(w, es)
    decreases |es|
  {
    if es == [] then multiset{} else Told(w, es[0]) + AllTold(Step(w, es[0]), es[1..])
  }

  lemma {:induction false} RunTells(w: World, es: seq<Event>)
    requires Inv(w) && Possible(w, es)
    ensures Run(w, es).called == w.called + AllTold(w, es)
    decreases |es|
  {
    if es != [] {
      StepTells(w, es[0]);
      StepKeepsInv(w, es[0]);
      RunTells(Step(w, es[0]), es[1..]);
    }
  }

  /**
   The callbacks tell the truth: over any run from new sockets they are exactly the answers of the OS, each
   for the operation it answers and with its verdict.
   */
  lemma CallbacksTellTheTruth(n: nat, es: seq<Event>)
    requires Possible(Initial(n), es)
    ensures Run(Initial(n), es).called == AllTold(Initial(n), es)
  {
    InitialKeepsInv(n);
    RunTells(Initial(n), es);
  }

  /** The thread pool's accounts balance on every socket, the listeners' included. */
  lemma NotificationsBalance(w: World, i: nat)
    requires Reachable(w) && i < |w.socks|
    ensures var s := w.socks[i]; s.started == s.cancelled + s.delivered + |Through(w.queued, i)|
  {
    ReachableKeepsInv(w);
    assert Balanced(w.socks[i], w.queued, i);
  }

  predicate AllSound(socks: seq<Sock>) {
    forall i :: 0 <= i < |socks| ==> Sound(socks[i].life)
  }

  lemma ListenSound(s: Sock, init: Init, listens: bool)
    requires Sound(s.life)
    ensures Sound(ListenOn(s, init, listens).life) <==> !s.life.handle
  {
    InitNeedsNoHandle(s.life, init);
  }

  lemma AcceptSound(s: Sock, init: Init, outcome: Outcome, contextUpdated: bool)
    requires Sound(s.life)
    ensures Sound(AcceptTarget(s, init, outcome, contextUpdated).0.life) <==> !s.life.handle
  {
    InitNeedsNoHandle(s.life, init);
  }

  lemma ConnectSound(s: Sock, init: Init, bound: bool, outcome: Outcome, contextUpdated: bool)
    requires Sound(s.life)
    ensures Sound(ConnectTo(s, init, bound, outcome, contextUpdated).0.life) <==> !s.life.handle
  {
    InitNeedsNoHandle(s.life, init);
  }

  lemma FinishSound(s: Sock, ov: Overlapped, success: bool, contextUpdated: bool)
    requires Sound(s.life)
    ensures Sound(Finish(s, ov, success, contextUpdated).0.life)
  {
  }

  /** Only socket k changes its handle or I/O object. */
  lemma OneLifeChanges(socks: seq<Sock>, socks': seq<Sock>, k: nat)
    requires AllSound(socks) && |socks'| == |socks| && k < |socks|
    requires forall i :: 0 <= i < |socks| && i != k ==> socks'[i].life == socks[i].life
    ensures AllSound(socks') <==> Sound(socks'[k].life)
  {
    if Sound(socks'[k].life) {
      forall i | 0 <= i < |socks'| ensures Sound(socks'[i].life) {
        assert Sound(socks[i].life);
      }
    }
  }

  lemma CompletionStaysSound(w: World, e: Event)
    requires AllSound(w.socks) && Enabled(w, e) && e.Completion?
    ensures AllSound(Step(w, e).socks)
  {
    var i := e.key.owner;
    assert Sound(w.socks[i].life);
    FinishSound(w.socks[i], e.key.ov, e.success, e.contextUpdated);
    OneLifeChanges(w.socks, Step(w, e).socks, i);
  }

  lemma CreationIsSound(w: World, e: Event)
    requires AllSound(w.socks) && Enabled(w, e) && (e.CallListen? || e.CallAccept? || e.CallConnect?)
    ensures AllSound(Step(w, e).socks) <==> Fresh(w, e)
  {
    var s := w.socks[e.owner];
    assert Sound(s.life);
    match e {
      case CallListen(_, init, listens) => ListenSound(s, init, listens);
      case CallAccept(_, _, init, outcome, contextUpdated) => AcceptSound(s, init, outcome, contextUpdated);
      case CallConnect(_, init, bound, outcome, contextUpdated) => ConnectSound(s, init, bound, outcome, contextUpdated);
      case _ =>
    }
    OneLifeChanges(w.socks, Step(w, e).socks, e.owner);
  }

  /**
   Sockets and I/O objects: a call or completion keeps every socket sound, at most one live handle with
   its I/O object and each closed once, if and only if it creates no socket over a live one.
   */
  lemma SoundExactlyWhenFresh(w: World, e: Event)
    requires AllSound(w.socks) && Enabled(w, e)
    ensures AllSound(Step(w, e).socks) <==> Fresh(w, e)
  {
    if e.Completion? {
      CompletionStaysSound(w, e);
    } else if e.CallTransfer? || e.CallDisconnect? {
      assert Sound(w.socks[e.owner].life);
    } else {
      CreationIsSound(w, e);
    }
  }

  /** A run in which sockets are only created where there is none. */
  ghost predicate Careful(w: World, es: seq<Event>)
    decreases |es|
  {
    es == [] || (Enabled(w, es[0]) && Fresh(w, es[0]) && Careful(Step(w, es[0]), es[1..]))
  }

  lemma {:induction false} CarefulRun(w: World, es: seq<Event>)
    requires Careful(w, es)
    ensures Possible(w, es)
    ensures AllSound(w.socks) ==> AllSound(Run(w, es).socks)
    decreases |es|
  {
    if es != [] {
      if AllSound(w.socks) {
        SoundExactlyWhenFresh(w, es[0]);
      }
      CarefulRun(Step(w, es[0]), es[1..]);
    }
  }

  lemma CarefulStep(w: World, e: Event, es: seq<Event>)
    requires Enabled(w, e) && Fresh(w, e) && Careful(Step(w, e), es)
    ensures Careful(w, [e] + es) && Possible(w, [e] + es) && Possible(Step(w, e), es)
    ensures Run(w, [e] + es) == Run(Step(w, e), es)
  {
    assert ([e] + es)[1..] == es;
    CarefulRun(Step(w, e), es);
  }

  lemma {:induction false} CarefulJoin(w: World, es: seq<Event>, fs: seq<Event>)
    requires Careful(w, es) && Possible(w, es) && Careful(Run(w, es), fs)
    ensures Careful(w, es + fs) && Possible(w, es + fs) && Possible(Run(w, es), fs)
    ensures Run(w, es + fs) == Run(Run(w, es), fs)
    decreases |es|
  {
    if es == [] {
      assert [] + fs == fs;
      CarefulRun(w, fs);
    } else {
      assert (es + fs)[1..] == es[1..] + fs;
      CarefulJoin(Step(w, es[0]), es[1..], fs);
    }
  }

  /** Alike to everybody but the thread pool's tallies. */
  predicate Alike(s: Sock, t: Sock) {
    s.life == t.life && forall ov :: Pending(s, ov) == Pending(t, ov)
  }

  /**
   An answer on the spot is the same as an operation left pending that completes at once: the socket is
   left alike, and the callback is the same.
   */
  lemma SpotIsPendingThenDone(s: Sock, op: Op, outcome: Outcome, contextUpdated: bool)
    requires !outcome.Pends? && !Pending(s, OverlappedOf(op))
    ensures op.Receive? || op.Send? ==>
              var (t, cb) := Transfer(s, op, outcome);
              var (u, cb') := Finish(Transfer(s, op, Pends).0, OverlappedOf(op), outcome.Completes?, contextUpdated);
              Alike(t, u) && cb == Some(cb')
    ensures op.Disconnect? ==>
              var (t, cb) := Leave(s, outcome);
              var (u, cb') := Finish(Leave(s, Pends).0, DisconnectOv, outcome.Completes?, contextUpdated);
              Alike(t, u) && cb == Some(cb')
    ensures op.Accept? || op.Connect? ==>
              var (t, cb) := Establish(s, op, outcome, contextUpdated);
              var (u, cb') := Finish(Establish(s, op, Pends, true).0, Main, outcome.Completes?, contextUpdated);
              Alike(t, u) && cb == Some(cb')
  {
  }

  /**
   The pending flags agree with what is queued. So `cancel` acts exactly on what is outstanding;
   but CancelIoEx names the socket's own handle, which is the handle the operation was started on
   exactly when the operation is not an accept.
   */
  lemma CancelFindsTheOperation(w: World, i: nat, op: Op)
    requires Reachable(w) && i < |w.socks|
    ensures Cancels(w.socks[i], op) <==> w.socks[i].life.handle && Key(i, OverlappedOf(op)) in w.queued
    ensures Cancels(w.socks[i], op) ==>
              var ticket := w.queued[Key(i, OverlappedOf(op))];
              ticket.serial < |w.ops| && (ticket.via == i <==> !w.ops[ticket.serial].Accept?)
  {
    ReachableKeepsInv(w);
    assert Pending(w.socks[i], OverlappedOf(op)) <==> Key(i, OverlappedOf(op)) in w.queued;
    if Key(i, OverlappedOf(op)) in w.queued {
      assert Ticketed(w.socks, w.queued, w.ops, Key(i, OverlappedOf(op)));
    }
  }

  /** Two calls that lead there: a listener, and an accept left pending. `cancel` misses it. */
  lemma CancelMissesAnAccept() returns (w: World)
    ensures Reachable(w) && |w.socks| == 2 && w.socks[1].life.handle
    ensures Cancels(w.socks[1], Accept)
    ensures Key(1, Main) in w.queued && w.queued[Key(1, Main)].via == 0
  {
    var es := [CallListen(0, Ready, true), CallAccept(0, 1, Ready, Pends, true)];
    var v := Step(Initial(2), es[0]);
    w := Step(v, es[1]);
    assert es[1..] == [es[1]] && es[1..][1..] == [];
    assert Possible(w, []) && Run(w, []) == w;
    assert Possible(v, es[1..]) && Run(v, es[1..]) == w;
    assert Possible(Initial(2), es) && Run(Initial(2), es) == w;
  }
}
