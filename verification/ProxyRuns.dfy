/** What every timely run of the proxy slot keeps, and what an untimely timer breaks. */
module ProxyRuns {
  import opened Basics
  import opened SocketLifetime
  import opened ProxySpec

  /** Bytes that arrived on `near` and sit in `far`'s view, not yet handed over. */
  function Owed(near: Half, far: Half): seq<byte> {
    if far.owing then Stretch(near.recvbuf, far.sendbuf.offset, far.sendbuf.length) else []
  }

  /** One direction: nothing lost, nothing repeated, nothing reordered. */
  predicate Relays(near: Half, far: Half) {
    && |near.recvbuf| == BUFFER_SIZE
    && (far.owing ==>
          && 0 < far.sendbuf.length
          && far.sendbuf.offset + far.sendbuf.length <= BUFFER_SIZE)
    && (far.sock.sending ==> far.owing)
    && (near.sock.receiving ==> !far.owing)
    && near.received == far.delivered + Owed(near, far)
  }

  predicate Still(sock: Sock) {
    && !sock.accepting && !sock.connecting && !sock.receiving && !sock.sending
    && !sock.disconnecting && !sock.receiveCancelled && !sock.sendCancelled
  }

  predicate Waiting(s: Slot) {
    && s.server.sock.accepting && Still(s.server.sock.(accepting := false)) && !s.server.open
    && Still(s.client.sock) && !s.client.sock.life.handle && !s.client.open
    && !s.timerArmed
  }

  predicate Dialling(s: Slot) {
    && Still(s.server.sock) && s.server.sock.life.handle && s.server.open
    && s.client.sock.connecting && Still(s.client.sock.(connecting := false)) && !s.client.open
    && s.nconnections == 1 && s.timerArmed
    && !s.server.owing && !s.client.owing
  }

  /** In one direction exactly one operation is outstanding, and a send is what the view is for. */
  predicate OneOperation(near: Half, far: Half) {
    near.sock.receiving != far.sock.sending && far.owing == far.sock.sending
  }

  predicate Flowing(h: Half) {
    && h.open && h.sock.life.handle
    && Still(h.sock.(receiving := false, sending := false))
  }

  predicate Relaying(s: Slot) {
    && Flowing(s.server) && Flowing(s.client)
    && OneOperation(s.server, s.client) && OneOperation(s.client, s.server)
    && s.nconnections == 2
  }

  predicate Leaving(h: Half) {
    && !h.open && !h.sock.accepting && !h.sock.connecting
    && h.sock.life.handle == h.sock.disconnecting
    && h.sock.receiveCancelled == h.sock.receiving
    && h.sock.sendCancelled == h.sock.sending
    && (h.sock.receiving || h.sock.sending ==> h.sock.disconnecting)
  }

  predicate Closing(s: Slot) {
    && Leaving(s.server) && Leaving(s.client)
    && !s.timerArmed
    && s.nconnections as int == Ind(s.server.sock.disconnecting) + Ind(s.client.sock.disconnecting)
    && 0 < s.nconnections
  }

  predicate Inv(s: Slot) {
    && Sound(s.server.sock.life) && Sound(s.client.sock.life)
    && Relays(s.server, s.client) && Relays(s.client, s.server)
    && (Waiting(s) || Dialling(s) || Relaying(s) || Closing(s))
    && s.accepts + Ind(!s.server.sock.accepting) == 1 + s.refused + s.sessions
  }

  // One step.

  lemma CloseKeepsInv(s: Slot, cancelTimer: bool)
    requires Sound(s.server.sock.life) && Sound(s.client.sock.life)
    requires Relays(s.server, s.client) && Relays(s.client, s.server)
    requires s.accepts + Ind(!s.server.sock.accepting) == 1 + s.refused + s.sessions
    requires Flowing(s.server) && Flowing(s.client) && s.nconnections == 2
    requires cancelTimer || !s.timerArmed
    ensures Closing(CloseConnections(s, cancelTimer)) && Inv(CloseConnections(s, cancelTimer))
  {
  }

  /** The slot with its two halves replaced; `near` is the half on the given side. */
  function Place(s: Slot, side: Side, near: Half, far: Half, armed: bool): Slot {
    if side.Server? then s.(server := near, client := far, timerArmed := armed)
    else s.(server := far, client := near, timerArmed := armed)
  }

  lemma RelayGoesOn(s: Slot, side: Side, near: Half, far: Half, armed: bool)
    requires Inv(s) && Relaying(s)
    requires Flowing(near) && Flowing(far) && Relays(near, far) && Relays(far, near)
    requires OneOperation(near, far) && OneOperation(far, near)
    requires Sound(near.sock.life) && Sound(far.sock.life)
    ensures Inv(Place(s, side, near, far, armed))
  {
    assert Relaying(Place(s, side, near, far, armed));
  }

  /** Direction by direction: a receive completes with data, and the other half starts sending it. */
  lemma ReceiveRelays(near: Half, far: Half, count: nat)
    requires Flowing(near) && Flowing(far) && Relays(near, far) && Relays(far, near)
    requires OneOperation(near, far) && OneOperation(far, near)
    requires near.sock.receiving && 0 < count <= BUFFER_SIZE
    ensures var near' := near.(sock := near.sock.(receiving := false, receiveCancelled := false),
                               received := near.received + Stretch(near.recvbuf, 0, count));
            var far' := StartSend(far, View(0, count));
            && Flowing(near') && Flowing(far') && Relays(near', far') && Relays(far', near')
            && OneOperation(near', far') && OneOperation(far', near')
  {
    assert far.delivered + [] == far.delivered;
  }

  /** A partial send: the view shrinks by exactly what was handed over. */
  lemma PartialSendRelays(near: Half, far: Half, count: nat)
    requires Flowing(near) && Flowing(far) && Relays(near, far) && Relays(far, near)
    requires OneOperation(near, far) && OneOperation(far, near)
    requires far.sock.sending && count < far.sendbuf.length
    ensures var far' := SentPart(near, far, count);
            && Flowing(far') && Relays(near, far') && Relays(far', near)
            && OneOperation(near, far') && OneOperation(far', near)
  {
    var v := far.sendbuf;
    StretchSplits(near.recvbuf, v.offset, v.length, count);
    assert far.delivered + (Stretch(near.recvbuf, v.offset, count)
                            + Stretch(near.recvbuf, v.offset + count, v.length - count))
        == (far.delivered + Stretch(near.recvbuf, v.offset, count))
           + Stretch(near.recvbuf, v.offset + count, v.length - count);
  }

  lemma StretchSplits(buf: seq<byte>, offset: nat, length: nat, count: nat)
    requires offset + length <= |buf| && count <= length
    ensures Stretch(buf, offset, length)
         == Stretch(buf, offset, count) + Stretch(buf, offset + count, length - count)
  {
  }

  /** The last of a view is handed over, and the half it came from receives again. */
  lemma FullSendRelays(near: Half, far: Half)
    requires Flowing(near) && Flowing(far) && Relays(near, far) && Relays(far, near)
    requires OneOperation(near, far) && OneOperation(far, near)
    requires far.sock.sending
    ensures var v := far.sendbuf;
            var far' := far.(sock := far.sock.(sending := false, sendCancelled := false),
                             delivered := far.delivered + Stretch(near.recvbuf, v.offset, v.length),
                             owing := false);
            var near' := StartReceive(near);
            && Flowing(near') && Flowing(far') && Relays(near', far') && Relays(far', near')
            && OneOperation(near', far') && OneOperation(far', near')
  {
    var sent := far.delivered + Stretch(near.recvbuf, far.sendbuf.offset, far.sendbuf.length);
    assert sent + [] == sent;
  }

  lemma DataKeepsInv(s: Slot, side: Side, count: nat)
    requires Inv(s) && Enabled(s, ReceiveDone(side, Ok(count))) && 0 < count
    ensures Inv(Step(s, ReceiveDone(side, Ok(count))))
  {
    var near, far := Get(s, side), Get(s, Other(side));
    assert Relaying(s);
    ReceiveRelays(near, far, count);
    var near' := near.(sock := near.sock.(receiving := false, receiveCancelled := false),
                       received := near.received + Stretch(near.recvbuf, 0, count));
    var far' := StartSend(far, View(0, count));
    RelayGoesOn(s, side, near', far', true);
    assert Step(s, ReceiveDone(side, Ok(count))) == Place(s, side, near', far', true);
  }

  lemma ReceiveEnds(s: Slot, side: Side, result: IoResult)
    requires Inv(s) && Enabled(s, ReceiveDone(side, result)) && (result.Ok? ==> result.count == 0)
    ensures Inv(Step(s, ReceiveDone(side, result)))
  {
    if Relaying(s) {
      CloseKeepsInv(FinishReceive(s, side), true);
    }
  }

  /** What a partial send makes of the half that sends. */
  function SentPart(near: Half, far: Half, count: nat): Half
    requires count <= far.sendbuf.length
  {
    var v := far.sendbuf;
    StartSend(far.(delivered := far.delivered + Stretch(near.recvbuf, v.offset, count)),
              View(v.offset + count, v.length - count))
  }

  lemma PartialSendStep(s: Slot, side: Side, count: nat)
    requires Enabled(s, SendDone(side, Ok(count))) && count < Get(s, side).sendbuf.length
    ensures Step(s, SendDone(side, Ok(count)))
         == Place(s, Other(side), Get(s, Other(side)), SentPart(Get(s, Other(side)), Get(s, side), count),
                  side.Server? || s.timerArmed)
  {
  }

  lemma PartialSendKeepsInv(s: Slot, side: Side, count: nat)
    requires Inv(s) && Enabled(s, SendDone(side, Ok(count))) && count < Get(s, side).sendbuf.length
    ensures Inv(Step(s, SendDone(side, Ok(count))))
  {
    var near, far := Get(s, Other(side)), Get(s, side);
    assert Relaying(s);
    PartialSendRelays(near, far, count);
    RelayGoesOn(s, Other(side), near, SentPart(near, far, count), side.Server? || s.timerArmed);
    PartialSendStep(s, side, count);
  }

  lemma FullSendKeepsInv(s: Slot, side: Side, count: nat)
    requires Inv(s) && Enabled(s, SendDone(side, Ok(count))) && count == Get(s, side).sendbuf.length
    ensures Inv(Step(s, SendDone(side, Ok(count))))
  {
    var near, far := Get(s, Other(side)), Get(s, side);
    assert Relaying(s);
    FullSendRelays(near, far);
    var v := far.sendbuf;
    var far' := far.(sock := far.sock.(sending := false, sendCancelled := false),
                     delivered := far.delivered + Stretch(near.recvbuf, v.offset, v.length),
                     owing := false);
    RelayGoesOn(s, Other(side), StartReceive(near), far', false);
    assert Step(s, SendDone(side, Ok(count))) == Place(s, Other(side), StartReceive(near), far', false);
  }

  lemma SendFails(s: Slot, side: Side, result: IoResult)
    requires Inv(s) && Enabled(s, SendDone(side, result)) && !result.Ok?
    ensures Inv(Step(s, SendDone(side, result)))
  {
    if Relaying(s) {
      CloseKeepsInv(FinishSend(s, side), true);
    }
  }

  lemma AcceptKeepsInv(s: Slot, accepted: bool, init: Init)
    requires Inv(s) && Enabled(s, AcceptDone(accepted, init))
    ensures Inv(Step(s, AcceptDone(accepted, init)))
  {
  }

  lemma ConnectKeepsInv(s: Slot, connected: bool)
    requires Inv(s) && Enabled(s, ConnectDone(connected))
    ensures Inv(Step(s, ConnectDone(connected)))
  {
    assert Dialling(s);
  }

  lemma DisconnectKeepsInv(s: Slot, side: Side, init: Init)
    requires Inv(s) && Enabled(s, DisconnectDone(side, init))
    ensures Inv(Step(s, DisconnectDone(side, init)))
  {
    assert Closing(s);
  }

  lemma TimerKeepsInv(s: Slot)
    requires Inv(s) && Enabled(s, TimerFires) && Timely(s, TimerFires)
    ensures Inv(Step(s, TimerFires))
  {
    assert Relaying(s);
    CloseKeepsInv(s.(timerArmed := false), false);
  }

  lemma FillKeepsInv(s: Slot, side: Side, contents: seq<byte>)
    requires Inv(s) && Enabled(s, OsFills(side, contents))
    ensures Inv(Step(s, OsFills(side, contents)))
  {
  }

  lemma StepKeepsInv(s: Slot, e: Event)
    requires Inv(s) && Enabled(s, e) && Timely(s, e)
    ensures Inv(Step(s, e))
  {
    match e
    case AcceptDone(accepted, init) => AcceptKeepsInv(s, accepted, init);
    case ConnectDone(connected) => ConnectKeepsInv(s, connected);
    case ReceiveDone(side, result) =>
      if result.Ok? && 0 < result.count {
        DataKeepsInv(s, side, result.count);
      } else {
        ReceiveEnds(s, side, result);
      }
    case SendDone(side, result) =>
      if !result.Ok? {
        SendFails(s, side, result);
      } else if result.count < Get(s, side).sendbuf.length {
        PartialSendKeepsInv(s, side, result.count);
      } else {
        FullSendKeepsInv(s, side, result.count);
      }
    case DisconnectDone(side, init) => DisconnectKeepsInv(s, side, init);
    case TimerFires => TimerKeepsInv(s);
    case OsFills(side, contents) => FillKeepsInv(s, side, contents);
  }

  // Runs.

  ghost predicate Starts(s: Slot) {
    && |s.server.recvbuf| == BUFFER_SIZE && |s.client.recvbuf| == BUFFER_SIZE
    && exists init :: s == Initial(s.server.recvbuf, s.client.recvbuf, init)
  }

  lemma {:induction false} RunKeepsInv(s: Slot, es: seq<Event>)
    requires Inv(s) && TimelyRun(s, es)
    ensures Possible(s, es) && Inv(Run(s, es))
    decreases |es|
  {
    if es != [] {
      StepKeepsInv(s, es[0]);
      RunKeepsInv(Step(s, es[0]), es[1..]);
    }
  }

  lemma InitialWaits(serverBuffer: seq<byte>, clientBuffer: seq<byte>, init: Init)
    requires |serverBuffer| == BUFFER_SIZE && |clientBuffer| == BUFFER_SIZE
    ensures var s := Initial(serverBuffer, clientBuffer, init);
            && Waiting(s) && Sound(s.server.sock.life) && Sound(s.client.sock.life)
            && s.accepts == 1 && s.refused == 0 && s.sessions == 0
            && Relays(s.server, s.client) && Relays(s.client, s.server)
  {
  }

  lemma WaitingKeepsInv(s: Slot)
    requires Waiting(s) && Sound(s.server.sock.life) && Sound(s.client.sock.life)
    requires Relays(s.server, s.client) && Relays(s.client, s.server)
    requires s.accepts == 1 + s.refused + s.sessions
    ensures Inv(s)
  {
  }

  lemma StartKeepsInv(s: Slot)
    requires Starts(s)
    ensures Inv(s)
  {
    var init :| s == Initial(s.server.recvbuf, s.client.recvbuf, init);
    InitialWaits(s.server.recvbuf, s.client.recvbuf, init);
    WaitingKeepsInv(s);
  }

  /** A state that some timely run of a newly constructed slot leads to. */
  ghost predicate Reachable(t: Slot) {
    exists s, es :: Starts(s) && TimelyRun(s, es) && Possible(s, es) && t == Run(s, es)
  }

  lemma ReachableKeepsInv(t: Slot)
    requires Reachable(t)
    ensures Inv(t)
  {
    var s, es :| Starts(s) && TimelyRun(s, es) && Possible(s, es) && t == Run(s, es);
    StartKeepsInv(s);
    RunKeepsInv(s, es);
  }

  lemma {:induction false} RunExtends(s: Slot, es: seq<Event>, e: Event)
    requires TimelyRun(s, es) && Possible(s, es)
    requires Enabled(Run(s, es), e) && Timely(Run(s, es), e)
    ensures TimelyRun(s, es + [e]) && Possible(s, es + [e])
    ensures Run(s, es + [e]) == Step(Run(s, es), e)
    decreases |es|
  {
    if es == [] {
      assert ([] + [e])[1..] == [];
    } else {
      assert (es + [e])[1..] == es[1..] + [e];
      RunExtends(Step(s, es[0]), es[1..], e);
    }
  }

  /** Timely steps lead from reachable states to reachable states. */
  lemma ReachableIsClosed(t: Slot, e: Event)
    requires Reachable(t) && Enabled(t, e) && Timely(t, e)
    ensures Reachable(Step(t, e))
  {
    var s, es :| Starts(s) && TimelyRun(s, es) && Possible(s, es) && t == Run(s, es);
    RunExtends(s, es, e);
  }

  /**
   Stream refinement, both directions, every schedule of partial sends and interleavings: what was
   handed over on the far socket, followed by what is still owed from the view, is what arrived on
   the near socket. Delivery is therefore always an in-order prefix.
   */
  lemma StreamRefinement(t: Slot, side: Side)
    requires Reachable(t)
    ensures var near, far := Get(t, side), Get(t, Other(side));
            && near.received == far.delivered + Owed(near, far)
            && far.delivered <= near.received
  {
    ReachableKeepsInv(t);
  }

  /** What the invariant says about who owns each receive buffer. */
  predicate Owned(t: Slot, side: Side) {
    var near, far := Get(t, side), Get(t, Other(side));
    && (t.server.open && t.client.open ==> near.sock.receiving != far.sock.sending)
    && (near.sock.receiving ==> Owed(near, far) == [] && !far.sock.sending)
    && (far.sock.sending ==>
          && 0 < far.sendbuf.length
          && far.sendbuf.offset + far.sendbuf.length <= |near.recvbuf| == BUFFER_SIZE)
  }

  lemma InvOwns(t: Slot, side: Side)
    requires Inv(t)
    ensures Owned(t, side)
  {
  }

  /**
   Buffer ownership. While both halves are open each direction has exactly one operation
   outstanding. At any time at all, a buffer in the hands of a receive owes nothing, and a send
   reads inside the other half's buffer.
   */
  lemma BufferOwnership(t: Slot, side: Side)
    requires Reachable(t)
    ensures Owned(t, side)
  {
    ReachableKeepsInv(t);
    InvOwns(t, side);
  }

  lemma EmptyReceiveCloses(t: Slot, side: Side)
    requires Inv(t) && Enabled(t, ReceiveDone(side, Ok(0)))
    ensures var u := Step(t, ReceiveDone(side, Ok(0)));
            && Get(t, side).received == Get(t, Other(side)).delivered
            && Get(u, side).received == Get(u, Other(side)).delivered
            && !u.server.open && !u.client.open
            && u.server.sock.disconnecting && u.client.sock.disconnecting
  {
    assert Relaying(t);
    assert Get(t, Other(side)).delivered + [] == Get(t, Other(side)).delivered;
  }

  /** End of stream from one side: everything it sent before has been handed over in full. */
  lemma EndOfStreamComesLast(t: Slot, side: Side)
    requires Reachable(t) && Enabled(t, ReceiveDone(side, Ok(0)))
    ensures var u := Step(t, ReceiveDone(side, Ok(0)));
            && Get(t, side).received == Get(t, Other(side)).delivered
            && Get(u, side).received == Get(u, Other(side)).delivered
            && !u.server.open && !u.client.open
            && u.server.sock.disconnecting && u.client.sock.disconnecting
  {
    ReachableKeepsInv(t);
    EmptyReceiveCloses(t, side);
  }

  predicate Grows(s: Slot, t: Slot, side: Side) {
    if t.sessions == s.sessions then
      && Get(s, side).received <= Get(t, side).received
      && Get(s, side).delivered <= Get(t, side).delivered
    else
      t.sessions == s.sessions + 1 && Get(t, side).received == [] && Get(t, side).delivered == []
  }

  lemma CloseGrows(s: Slot, cancelTimer: bool, side: Side)
    ensures Grows(s, CloseConnections(s, cancelTimer), side)
  {
  }

  lemma ReceivedGrows(s: Slot, near: Side, count: nat, side: Side)
    ensures Grows(s, Received(s, near, count), side)
  {
    if count == 0 {
      CloseGrows(s, true, side);
    }
  }

  lemma SentGrows(s: Slot, far: Side, count: nat, side: Side)
    requires count <= Get(s, far).sendbuf.length
    ensures Grows(s, Sent(s, far, count), side)
  {
  }

  lemma TransfersGrow(s: Slot, e: Event, side: Side)
    requires (e.ReceiveDone? || e.SendDone?) && Enabled(s, e)
    ensures Grows(s, Step(s, e), side)
  {
    if e.ReceiveDone? {
      var s' := FinishReceive(s, e.side);
      if e.result.Ok? { ReceivedGrows(s', e.side, e.result.count, side); } else { CloseGrows(s', true, side); }
    } else {
      var s' := FinishSend(s, e.side);
      if e.result.Ok? { SentGrows(s', e.side, e.result.count, side); } else { CloseGrows(s', true, side); }
    }
  }

  /** Within a session the streams only grow; a new session starts them afresh. */
  lemma StreamsOnlyGrow(s: Slot, e: Event, side: Side)
    requires Enabled(s, e)
    ensures Grows(s, Step(s, e), side)
  {
    if e.ReceiveDone? || e.SendDone? {
      TransfersGrow(s, e, side);
    }
  }

  predicate Accounted(t: Slot) {
    var halves := Ind(t.server.open) + Ind(t.client.open);
    var leaving := Ind(t.server.sock.disconnecting) + Ind(t.client.sock.disconnecting);
    && (!t.server.sock.accepting ==> t.nconnections as int == halves + leaving > 0)
    && (t.server.sock.accepting <==> halves + leaving + Ind(t.client.sock.connecting) == 0)
    && t.accepts == 1 + t.refused + t.sessions - Ind(!t.server.sock.accepting)
  }

  lemma InvAccounts(t: Slot)
    requires Inv(t)
    ensures Accounted(t)
  {
  }

  /**
   Session accounting. Outside an accept, the counter is the number of open halves plus the
   disconnects outstanding, and never reaches zero. The slot has an accept outstanding exactly
   when it has no session, and every accept after the first answers one refusal or one session.
   */
  lemma SessionAccounting(t: Slot)
    requires Reachable(t)
    ensures Accounted(t)
  {
    ReachableKeepsInv(t);
    InvAccounts(t);
  }

  /**
   A connect outstanding always has the timer running, and an armed timer always belongs to a session
   still open: none is left over from an earlier one.
   */
  lemma TimerBelongsToTheSession(t: Slot)
    requires Reachable(t)
    ensures t.client.sock.connecting ==> t.timerArmed && t.server.open && t.nconnections == 1
    ensures t.timerArmed ==> t.server.open && !t.server.sock.accepting && !t.server.sock.disconnecting
  {
    ReachableKeepsInv(t);
  }

  lemma DisconnectCounts(t: Slot, side: Side, init: Init)
    requires Inv(t) && Enabled(t, DisconnectDone(side, init))
    ensures var u := Step(t, DisconnectDone(side, init));
            && u.accepts == t.accepts + Ind(!Get(t, Other(side)).sock.disconnecting)
            && (u.accepts > t.accepts ==> u.server.sock.accepting && !u.server.open && !u.client.open)
            && u.nconnections < t.nconnections
  {
    assert Closing(t);
  }

  /** A disconnect re-issues the accept exactly when it is the last of its session. */
  lemma LastDisconnectAccepts(t: Slot, side: Side, init: Init)
    requires Reachable(t) && Enabled(t, DisconnectDone(side, init))
    ensures var u := Step(t, DisconnectDone(side, init));
            && u.accepts == t.accepts + Ind(!Get(t, Other(side)).sock.disconnecting)
            && (u.accepts > t.accepts ==> u.server.sock.accepting && !u.server.open && !u.client.open)
            && u.nconnections < t.nconnections
  {
    ReachableKeepsInv(t);
    DisconnectCounts(t, side, init);
  }

  predicate Housed(t: Slot, side: Side) {
    var h := Get(t, side);
    && Sound(h.sock.life)
    && (h.open ==> h.sock.life.handle)
    && (h.sock.receiving || h.sock.sending || h.sock.disconnecting ==> h.sock.life.io)
  }

  lemma InvHouses(t: Slot, side: Side)
    requires Inv(t)
    ensures Housed(t, side)
  {
  }

  /**
   The socket objects: over any number of sessions each half has at most one live OS socket, which
   holds an I/O object exactly while it is live, and each socket made is closed once before the
   next is made. By InitNeedsNoHandle this is the same as `init` never being entered with a handle.
   */
  lemma SocketsNeverLeak(t: Slot, side: Side)
    requires Reachable(t)
    ensures Housed(t, side)
  {
    ReachableKeepsInv(t);
    InvHouses(t, side);
  }

  /** Operations outstanding on both sockets. */
  function Outstanding(t: Slot): nat {
    Ind(t.server.sock.receiving) + Ind(t.server.sock.sending) + Ind(t.server.sock.disconnecting)
    + Ind(t.client.sock.receiving) + Ind(t.client.sock.sending) + Ind(t.client.sock.disconnecting)
  }

  lemma ClosingDrains(t: Slot, e: Event)
    requires Inv(t) && Closing(t) && Enabled(t, e) && !e.OsFills?
    ensures var u := Step(t, e);
            && Outstanding(u) < Outstanding(t)
            && (if u.server.sock.accepting then Waiting(u) && u.accepts == t.accepts + 1
                else Closing(u) && u.accepts == t.accepts)
  {
  }

  /**
   A closed session always drains: as long as its accept has not been re-issued something can
   complete, each completion leaves fewer operations outstanding, and none opens a half again. The
   accept comes back after at most six completions.
   */
  lemma TeardownEnds(t: Slot) returns (e: Event)
    requires Reachable(t)
    requires !t.server.open && !t.client.open && !t.server.sock.accepting
    ensures 0 < Outstanding(t) <= 6 && Enabled(t, e) && Timely(t, e) && !e.OsFills?
    ensures forall e' :: Enabled(t, e') && !e'.OsFills? ==>
              var u := Step(t, e');
              && Outstanding(u) < Outstanding(t) && !u.server.open && !u.client.open
              && u.accepts == t.accepts + Ind(u.server.sock.accepting)
  {
    ReachableKeepsInv(t);
    forall e' | Enabled(t, e') && !e'.OsFills?
      ensures var u := Step(t, e');
              && Outstanding(u) < Outstanding(t) && !u.server.open && !u.client.open
              && u.accepts == t.accepts + Ind(u.server.sock.accepting)
    {
      ClosingDrains(t, e');
    }
    e := NextToDrain(t);
  }

  lemma NextToDrain(t: Slot) returns (e: Event)
    requires Inv(t) && Closing(t)
    ensures Enabled(t, e) && Timely(t, e) && !e.OsFills? && Outstanding(t) > 0
  {
    var side := if t.server.sock.disconnecting then Server else Client;
    var sock := Get(t, side).sock;
    e := if sock.receiving then ReceiveDone(side, Aborted)
         else if sock.sending then SendDone(side, Aborted)
         else DisconnectDone(side, Ready);
  }

  // The timer hypothesis.

  /** Neither an accept beside a connect, nor a socket lost. */
  predicate Clean(s: Slot) {
    && !(s.server.sock.accepting && s.client.sock.connecting)
    && Sound(s.server.sock.life) && Sound(s.client.sock.life)
  }

  lemma UntimelyFuture(s: Slot) returns (e: Event)
    requires Inv(s) && s.timerArmed && s.client.sock.connecting
    ensures TimelyRun(Step(s, TimerFires), [e]) && Possible(Step(s, TimerFires), [e])
    ensures !Clean(Run(Step(s, TimerFires), [e]))
  {
    e := DisconnectDone(Server, Ready);
    var t := Step(s, TimerFires);
    assert Dialling(s) && Enabled(t, e);
    var u := Step(t, e);
    assert [e][1..] == [];
    assert Possible(u, []) && Run(u, []) == u;
    assert Run(t, [e]) == u;
  }

  /**
   Exactly when the timer may fire: all timely futures stay clean if and only if no connect is
   outstanding. The guard is what the timer handler could test before closing.
   */
  lemma TimerIsSafeExactlyWithoutAConnect(s: Slot)
    requires Inv(s) && s.timerArmed
    ensures (forall es :: TimelyRun(Step(s, TimerFires), es) ==>
                            Possible(Step(s, TimerFires), es) && Clean(Run(Step(s, TimerFires), es)))
            <==> !s.client.sock.connecting
  {
    var t := Step(s, TimerFires);
    if s.client.sock.connecting {
      var e := UntimelyFuture(s);
    } else {
      TimerKeepsInv(s);
      forall es | TimelyRun(t, es) ensures Possible(t, es) && Clean(Run(t, es)) {
        RunKeepsInv(t, es);
      }
    }
  }

  /** The untimely run in full: the second connect overwrites the first socket, which is never closed. */
  lemma UntimelyTimerLeaksASocket(s: Slot)
    requires Starts(s) && s.server.sock.life.handle
    ensures var es := [AcceptDone(true, Ready), TimerFires, DisconnectDone(Server, Ready), AcceptDone(true, Ready)];
            && Possible(s, es)
            && Run(s, es).client.sock.life.created == 2 && Run(s, es).client.sock.life.closed == 0
            && Run(s, es).sessions == 2 && Run(s, es).client.sock.connecting
  {
    var es := [AcceptDone(true, Ready), TimerFires, DisconnectDone(Server, Ready), AcceptDone(true, Ready)];
    var a := Step(s, es[0]);
    var b := Step(a, es[1]);
    var c := Step(b, es[2]);
    var d := Step(c, es[3]);
    RunOne(c, es[3], d, [], es[3..]);
    RunOne(b, es[2], c, es[3..], es[2..]);
    RunOne(a, es[1], b, es[2..], es[1..]);
    RunOne(s, es[0], a, es[1..], es);
  }

  lemma RunOne(s: Slot, e: Event, t: Slot, rest: seq<Event>, es: seq<Event>)
    requires Enabled(s, e) && t == Step(s, e) && Possible(t, rest) && es == [e] + rest
    ensures Possible(s, es) && Run(s, es) == Run(t, rest)
  {
    assert es[1..] == rest;
  }
}
